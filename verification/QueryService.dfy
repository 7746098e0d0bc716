/**
 The repository of query runs and `QueryService.answer` as programs over the tables. Each method of
 the repository is one transaction: what it changed before a failure is rolled back. An execution of
 `answer` is one run of the step system of `QueryRuns`; here nothing comes between its steps.
 */
module QueryService {
  import opened Wrappers
  import opened Identity
  import Citations
  import opened QueryRuns

  /** `id uuid PRIMARY KEY` of the messages. */
  ghost predicate UniqueIds(messages: map<MessageKey, Message>) {
    forall m, n :: m in messages && n in messages && messages[m].id == messages[n].id ==> m == n
  }

  class Repository {
    var users: map<UserKey, UserRow>
    var conversations: map<ConversationKey, Conversation>
    var runs: map<RunKey, Run>
    var messages: map<MessageKey, Message>
    var citations: seq<CitationRow>
    ghost var issued: set<Id>

    ghost function Tables(): Db
      reads this
    {
      Db(users, conversations, runs, messages, citations, issued)
    }

    constructor ()
      ensures Tables() == Db(map[], map[], map[], map[], [], {})
    {
      users, conversations, runs, messages, citations, issued := map[], map[], map[], map[], [], {};
    }

    /** `_load_answer` */
    method LoadAnswer(tenant: Id, message: Option<Id>) returns (r: Result<Answer, Error>)
      requires UniqueIds(messages)
      ensures r == QueryRuns.LoadAnswer(Tables(), tenant, message)
    {
      if message.None? {
        return Failure(RequestInProgress);
      }
      var id := message.value;
      if !exists key :: key in messages && key.run.tenant == tenant && key.role == Assistant && messages[key].id == id {
        assert forall key :: !IsAnswer(Tables(), tenant, id, key);
        return Failure(NotFound);
      }
      var key :| key in messages && key.run.tenant == tenant && key.role == Assistant && messages[key].id == id;
      assert IsAnswer(Tables(), tenant, id, key);
      var m := messages[key];
      var rows := ByIndex(RowsOf(citations, id));
      return Success(Answer(m.id, m.content, Each(rows), m.refused, ReasonText(m.reason), m.conversation, m.createdAt));
    }

    /** The conversation of a request. */
    method Resolve(q: Request, minted: Id) returns (r: Result<Id, Error>)
      modifies this`conversations, this`issued
      ensures var spec := Resolved(old(Tables()), q, minted);
              if spec.Failure? then r == Failure(spec.error) && Tables() == old(Tables())
              else r == Success(spec.value.1) && Tables() == spec.value.0
    {
      if q.conversation.Some? {
        if !Available(conversations, q, q.conversation.value) {
          return Failure(PermissionDenied);
        }
        return Success(q.conversation.value);
      }
      var key := ConversationKey(q.tenant, q.user, q.channel);
      var id := if key in conversations then conversations[key].id else minted;
      conversations := conversations[key := Conversation(id, true)];
      issued := issued + {minted};
      return Success(id);
    }

    /** The part of `claim_query` that decides on the run. */
    method ClaimRun(q: Request, conversation: Id, clock: int, now: int) returns (r: Result<Claim, Error>)
      requires UniqueIds(messages)
      modifies this`runs, this`issued
      ensures var spec := RunClaim(old(Tables()), q, conversation, clock, now);
              if spec.Failure? then r == Failure(spec.error) && Tables() == old(Tables())
              else r == Success(spec.value.1) && Tables() == spec.value.0
    {
      var key := KeyOf(q);
      if key !in runs {
        runs := runs[key := Run(FingerprintOf(q), InProgress, 1, conversation, None, now)];
        issued := issued + {q.request};
        return Success(Fresh(conversation));
      }
      var run := runs[key];
      if run.fingerprint != FingerprintOf(q) {
        return Failure(RequestConflict);
      }
      if Done(run.status) {
        var answer := LoadAnswer(q.tenant, run.result);
        if answer.Failure? {
          return Failure(answer.error);
        }
        return Success(Replay(conversation, answer.value));
      }
      if run.status == InProgress && clock - run.updatedAt < 30 {
        return Failure(RequestInProgress);
      }
      if run.status == FinalFailed {
        return Failure(RequestConflict);
      }
      runs := runs[key := run.(status := InProgress, attempt := run.attempt + 1, updatedAt := now,
                               conversation := conversation)];
      return Success(Fresh(conversation));
    }

    method ClaimQuery(q: Request, clock: int, now: int, minted: Id, message: Id) returns (r: Result<Claim, Error>)
      requires UniqueIds(messages)
      modifies this
      ensures var spec := QueryRuns.ClaimQuery(old(Tables()), q, clock, now, minted, message);
              if spec.Failure? then r == Failure(spec.error) && Tables() == old(Tables())
              else r == Success(spec.value.1) && Tables() == spec.value.0
    {
      var user := UserKey(q.tenant, q.user);
      if user !in users {
        return Failure(NotFound);
      }
      if !users[user].active {
        return Failure(PermissionDenied);
      }
      var before := conversations;
      ghost var issuedBefore := issued;
      var conversation := Resolve(q, minted);
      if conversation.Failure? {
        return Failure(conversation.error);
      }
      r := ClaimRun(q, conversation.value, clock, now);
      if r.Failure? {
        conversations, issued := before, issuedBefore;
      } else if r.value.Fresh? {
        AskQuestion(q, r.value.conversation, message, now);
      }
    }

    method AskQuestion(q: Request, conversation: Id, message: Id, now: int)
      modifies this`messages, this`issued
      ensures Tables() == WithQuestion(old(Tables()), q, conversation, message, now)
    {
      var key := MessageKey(KeyOf(q), User);
      if key !in messages {
        messages := messages[key := Message(message, conversation, q.user, q.question, false, None, now)];
        issued := issued + {message};
      }
    }

    method PersistAnswer(key: RunKey, user: Id, conversation: Id, g: Citations.GeneratedAnswer,
                         candidates: seq<Candidate>,
                         message: Id, now: int) returns (r: Result<Answer, Error>)
      modifies this
      ensures var spec := QueryRuns.PersistAnswer(old(Tables()), key, user, conversation, g, candidates, message, now);
              if spec.Failure? then r == Failure(spec.error) && Tables() == old(Tables())
              else r == Success(spec.value.1) && Tables() == spec.value.0
    {
      if MessageKey(key, Assistant) in messages {
        return Failure(UniqueViolation);
      }
      var messagesBefore := messages;
      var reason := if g.reason == "" then None else Some(g.reason);
      messages := messages[MessageKey(key, Assistant) := Message(message, conversation, user, g.answer, g.refused,
                                                                 reason, now)];
      var list := InsertCitations(g.indexes, candidates, message);
      if list.Failure? {
        messages := messagesBefore;
        return Failure(list.error);
      }
      FinishRun(key, if g.refused then CompletedWithRefusal else RunStatus.Completed, message, now);
      issued := issued + {message};
      return Success(Answer(message, g.answer, list.value, g.refused, g.reason, conversation, now));
    }

    method FinishRun(key: RunKey, status: RunStatus, message: Id, now: int)
      modifies this`runs
      ensures runs == if key in old(runs)
                      then old(runs)[key := old(runs)[key].(status := status, result := Some(message),
                                                            updatedAt := now)]
                      else old(runs)
    {
      if key in runs {
        runs := runs[key := runs[key].(status := status, result := Some(message), updatedAt := now)];
      }
    }

    /** The loop of `persist_answer` over the cited candidates. */
    method InsertCitations(indexes: seq<int>, candidates: seq<Candidate>, message: Id)
      returns (r: Result<seq<Citation>, Error>)
      modifies this`citations
      ensures r.Failure? <==> !Resolvable(indexes, candidates)
      ensures r.Failure? ==> r.error == IndexError && citations == old(citations)
      ensures r.Success? ==>
                && citations == old(citations) + RowsFor(message, indexes, candidates)
                && r.value == Each(RowsFor(message, indexes, candidates))
    {
      var before, list: seq<Citation> := citations, [];
      ghost var rows: seq<CitationRow> := [];
      for k := 0 to |indexes|
        invariant |rows| == k && |list| == k && citations == before + rows
        invariant forall j :: 0 <= j < k ==> At(candidates, indexes[j] - 1).Some?
        invariant forall j :: 0 <= j < k ==> rows[j] == RowOf(message, j + 1, At(candidates, indexes[j] - 1).value)
        invariant forall j :: 0 <= j < k ==> list[j] == CitationOf(rows[j])
      {
        var candidate := At(candidates, indexes[k] - 1);
        if candidate.None? {
          citations := before;
          return Failure(IndexError);
        }
        var row := RowOf(message, k + 1, candidate.value);
        citations := citations + [row];
        rows := rows + [row];
        list := list + [CitationOf(row)];
      }
      assert Resolvable(indexes, candidates);
      assert rows == RowsFor(message, indexes, candidates);
      return Success(list);
    }

    method MarkRetryableFailure(key: RunKey, now: int)
      modifies this`runs
      ensures Tables() == QueryRuns.MarkRetryableFailure(old(Tables()), key, now)
    {
      if key in runs && runs[key].status == InProgress {
        runs := runs[key := runs[key].(status := RetryableFailed, updatedAt := now)];
      }
    }
  }

  /** What retrieval and generation yield: the candidates and the model's answer, or a failed dependency. */
  datatype Generation = Generated(candidates: seq<Candidate>, raw: Citations.GeneratedAnswer) | Unavailable

  datatype Problem = OfRepository(error: Error) | OfCitations(inner: Citations.Error) | DependencyUnavailable

  /** The request may be asked and is not answered yet, so that the model is called. */
  ghost predicate IsOpen(db: Db, q: Request, clock: int) {
    MayAsk(db, q) && CanClaim(db, q, clock) && !(KeyOf(q) in db.runs && Done(db.runs[KeyOf(q)].status))
  }

  /** Whoever asks the same again gets to call the model, however soon. */
  ghost predicate CanBeAskedAgain(db: Db, q: Request) {
    forall clock, now, minted, message ::
      var r := QueryRuns.ClaimQuery(db, q, clock, now, minted, message);
      r.Success? && r.value.1.Fresh?
  }

  /** What is returned for what generation yielded, if that is sound: its text, and the candidates it cites. */
  ghost predicate Tells(a: Citations.Alphabet, generation: Generation, id: Id, answer: QueryRuns.Answer)
    requires generation.Generated?
  {
    var grounded := Grounded(a, generation.raw, generation.candidates);
    && grounded.Success? && answer.message == id
    && answer.refused == grounded.value.refused && answer.reason == grounded.value.reason
    && CitesIndexes(answer, grounded.value, id, generation.candidates)
    && (generation.candidates == [] ==>
          answer.refused && answer.reason == "NO_RELEVANT_EVIDENCE" && answer.citations == [])
  }

  lemma FreshCanBePersisted(db: Db, q: Request, clock: int, now: int, minted: Id, message: Id)
    requires DbOk(db) && Mintable(db, minted) && Mintable(db, message) && minted != message && message != q.request
    requires var r := QueryRuns.ClaimQuery(db, q, clock, now, minted, message); r.Success? && r.value.1.Fresh?
    ensures var t := QueryRuns.ClaimQuery(db, q, clock, now, minted, message).value.0;
            IsClaimed(t, q)
  {
    var (t, claim) := QueryRuns.ClaimQuery(db, q, clock, now, minted, message).value;
    ClaimKeepsDb(db, q, clock, now, minted, message);
    MovesMeans(db, t);
    ClaimedExactly(db, q, clock, now, minted, message);
    ClaimUsers(db, q, clock, now, minted, message);
    FreshClaimLeaves(db, q, clock, now, minted, message);
    assert RunOk(t, KeyOf(q));
  }

  /** A request whose run has failed for now can be claimed by the same user at any time. */
  lemma FailedCanBeAskedAgain(db: Db, q: Request)
    requires DbOk(db) && MayAsk(db, q) && KeyOf(q) in db.runs && SameInput(q, db.runs[KeyOf(q)].fingerprint)
    requires db.runs[KeyOf(q)].status == RetryableFailed
    ensures CanBeAskedAgain(db, q)
  {
    forall clock, now, minted, message
      ensures var r := QueryRuns.ClaimQuery(db, q, clock, now, minted, message); r.Success? && r.value.1.Fresh?
    {
      ClaimedExactly(db, q, clock, now, minted, message);
    }
  }

  lemma MarkedCanBeAskedAgain(db: Db, q: Request, now: int)
    requires DbOk(db) && MayAsk(db, q) && KeyOf(q) in db.runs && SameInput(q, db.runs[KeyOf(q)].fingerprint)
    requires db.runs[KeyOf(q)].status == InProgress
    ensures CanBeAskedAgain(QueryRuns.MarkRetryableFailure(db, KeyOf(q), now), q)
  {
    MarkKeepsDb(db, KeyOf(q), now);
    MovesMeans(db, QueryRuns.MarkRetryableFailure(db, KeyOf(q), now));
    FailedCanBeAskedAgain(QueryRuns.MarkRetryableFailure(db, KeyOf(q), now), q);
  }

  /** What becomes of the model's answer: it is stored if it is sound, unless there is an answer already. */
  lemma GroundedPersists(a: Citations.Alphabet, db: Db, key: RunKey, user: Id, conversation: Id,
                         generation: Generation, id: Id, now: int)
    requires Citations.Lawful(a) && generation.Generated?
    ensures var grounded := Grounded(a, generation.raw, generation.candidates);
            && grounded != Failure(Citations.KeyError)
            && (grounded.Success? && MessageKey(key, Assistant) !in db.messages ==>
                  var r := QueryRuns.PersistAnswer(db, key, user, conversation, grounded.value, generation.candidates,
                                                   id, now);
                  r.Success? && Tells(a, generation, id, r.value.1))
  {
    var grounded := Grounded(a, generation.raw, generation.candidates);
    if generation.candidates != [] { Citations.AcceptedExactly(a, generation.raw, |generation.candidates|); }
    if grounded.Success? {
      AcceptedIsPersisted(a, db, key, user, conversation, generation.raw, grounded.value, generation.candidates, id,
                          now);
    }
  }

  /** The claim of the request is this execution's, and nothing has come between. */
  ghost predicate IsClaimed(db: Db, q: Request) {
    && DbOk(db) && MayAsk(db, q) && KeyOf(q) in db.runs && SameInput(q, db.runs[KeyOf(q)].fingerprint)
    && db.runs[KeyOf(q)].status == InProgress && MessageKey(KeyOf(q), Assistant) !in db.messages
  }

  /** The steps of one execution. */
  ghost predicate OwnSteps(steps: seq<Step>, pid: nat) {
    forall k :: 0 <= k < |steps| ==>
      match steps[k]
      case Start(p, _, _, _, _, _) => p == pid
      case Break(p) => p == pid
      case Finish(p, _, _, _, _) => p == pid
      case Fail(p, _) => p == pid
      case Crash(p) => p == pid
      case _ => false
  }

  /** The service. Which executions there are and what they returned is kept for the proofs only. */
  class Service {
    const alphabet: Citations.Alphabet
    const repository: Repository
    ghost var executors: map<nat, Executor>
    ghost var returned: seq<Return>

    constructor (alphabet: Citations.Alphabet, repository: Repository)
      ensures this.alphabet == alphabet && this.repository == repository && executors == map[] && returned == []
    {
      this.alphabet, this.repository, executors, returned := alphabet, repository, map[], [];
    }

    ghost function Sys(): System
      reads this, repository
    {
      System(alphabet, repository.Tables(), executors, returned)
    }

    /** Takes note that the last statement was a step of the system. */
    ghost method Follow(first: System, steps: seq<Step>, step: Step, pid: nat) returns (steps': seq<Step>)
      requires Do(Exec(first, steps), step).db == repository.Tables() && first.alphabet == alphabet
      requires OwnSteps(steps, pid) && OwnSteps([step], pid)
      modifies this`executors, this`returned
      ensures steps' == steps + [step] && OwnSteps(steps', pid)
      ensures Sys() == Do(Exec(first, steps), step) && Sys() == Exec(first, steps')
    {
      steps' := steps + [step];
      ExecLast(first, steps, step);
      AlphabetStays(first, steps');
      executors, returned := Do(Exec(first, steps), step).executors, Do(Exec(first, steps), step).returned;
    }

    /** The model was reached, and what it said is accepted. */
    predicate IsSound(generation: Generation) {
      generation.Generated? && Grounded(alphabet, generation.raw, generation.candidates).Success?
    }

    /**
     `answer`, for a request that is already normalized. Whatever it returns is what the service will
     return for this request from then on; it succeeds exactly if the request may be asked and is answered
     already or the model's answer is sound; and after a failed dependency it can be asked again at once.
     */
    method Answer(ghost pid: nat, q: Request, clock: int, now: int, minted: Id, message: Id, generation: Generation,
                  answerId: Id, later: int) returns (r: Result<QueryRuns.Answer, Problem>, ghost steps: seq<Step>)
      requires UniqueIds(repository.messages) && pid !in executors
      requires Mintable(repository.Tables(), minted) && Mintable(repository.Tables(), message) && minted != message
      requires Mintable(repository.Tables(), answerId) && answerId != minted && answerId != message
      requires q.request != message && q.request != answerId
      modifies this, repository
      ensures OwnSteps(steps, pid) && Sys() == Exec(old(Sys()), steps) && pid !in executors
      ensures returned == if r.Success? then old(returned) + [Return(q, r.value)] else old(returned)
      ensures DbOk(old(repository.Tables())) && Citations.Lawful(alphabet) ==>
                && (r.Success? <==>
                      && MayAsk(old(repository.Tables()), q) && CanClaim(old(repository.Tables()), q, clock)
                      && (IsOpen(old(repository.Tables()), q, clock) ==> IsSound(generation)))
                && (r.Success? && IsOpen(old(repository.Tables()), q, clock) ==>
                      Tells(alphabet, generation, answerId, r.value))
                && (r.Success? && !IsOpen(old(repository.Tables()), q, clock) ==>
                      RepliesWithStored(old(repository.Tables()), q, Replay(r.value.conversation, r.value)))
                && (r == Failure(DependencyUnavailable) <==>
                      IsOpen(old(repository.Tables()), q, clock) && !IsSound(generation))
                && (r == Failure(DependencyUnavailable) ==> CanBeAskedAgain(repository.Tables(), q))
    {
      ghost var first := Sys();
      steps := [];
      var claim;
      claim, steps := Claim(pid, q, clock, now, minted, message, answerId);
      if claim.Failure? {
        return Failure(OfRepository(claim.error)), steps;
      }
      if claim.value.Replay? {
        return Success(claim.value.answer), steps;
      }
      r, steps := Generate(pid, q, claim.value.conversation, generation, answerId, later, first, steps);
    }

    /** The first statement of `answer`. */
    method Claim(ghost pid: nat, q: Request, clock: int, now: int, minted: Id, message: Id, ghost answerId: Id)
      returns (claim: Result<QueryRuns.Claim, Error>, ghost steps: seq<Step>)
      requires UniqueIds(repository.messages) && pid !in executors
      requires Mintable(repository.Tables(), minted) && Mintable(repository.Tables(), message) && minted != message
      requires Mintable(repository.Tables(), answerId) && answerId != minted && answerId != message
      requires q.request != message && q.request != answerId
      modifies this, repository
      ensures OwnSteps(steps, pid) && Sys() == Exec(old(Sys()), steps) && Mintable(repository.Tables(), answerId)
      ensures claim.Success? && claim.value.Fresh? ==>
                pid in executors && executors[pid] == Working(q, claim.value.conversation) && returned == old(returned)
      ensures claim.Success? && claim.value.Replay? ==>
                pid !in executors && returned == old(returned) + [Return(q, claim.value.answer)]
      ensures claim.Failure? ==> pid !in executors && returned == old(returned)
      ensures DbOk(old(repository.Tables())) ==>
                && (claim.Success? <==>
                      MayAsk(old(repository.Tables()), q) && CanClaim(old(repository.Tables()), q, clock))
                && (claim.Success? ==> RepliesWithStored(old(repository.Tables()), q, claim.value))
                && (claim.Success? && claim.value.Fresh? ==> IsClaimed(repository.Tables(), q))
    {
      ghost var first := Sys();
      steps := [];
      ghost var db := repository.Tables();
      if DbOk(db) {
        ClaimedExactly(db, q, clock, now, minted, message);
        var spec := QueryRuns.ClaimQuery(db, q, clock, now, minted, message);
        if spec.Success? && spec.value.1.Fresh? { FreshCanBePersisted(db, q, clock, now, minted, message); }
      }
      ClaimKeepsMintable(repository.Tables(), q, clock, now, minted, message, answerId);
      claim := repository.ClaimQuery(q, clock, now, minted, message);
      if claim.Success? {
        steps := Follow(first, steps, Start(pid, q, clock, now, minted, message), pid);
      }
    }

    /** The rest of `answer`, for a request that is not answered yet. */
    method Generate(ghost pid: nat, q: Request, conversation: Id, generation: Generation, answerId: Id, later: int,
                    ghost first: System, ghost steps: seq<Step>)
      returns (r: Result<QueryRuns.Answer, Problem>, ghost steps': seq<Step>)
      requires first.alphabet == alphabet && Sys() == Exec(first, steps) && OwnSteps(steps, pid)
      requires pid in executors && executors[pid] == Working(q, conversation)
      requires Mintable(repository.Tables(), answerId)
      modifies this, repository
      ensures OwnSteps(steps', pid) && Sys() == Exec(first, steps') && pid !in executors
      ensures returned == if r.Success? then old(returned) + [Return(q, r.value)] else old(returned)
      ensures IsClaimed(old(repository.Tables()), q) && Citations.Lawful(alphabet) ==>
                && (r.Success? <==> IsSound(generation))
                && (r.Success? ==> Tells(alphabet, generation, answerId, r.value))
                && (r == Failure(DependencyUnavailable) <==> !IsSound(generation))
                && (r == Failure(DependencyUnavailable) ==> CanBeAskedAgain(repository.Tables(), q))
    {
      if generation.Unavailable? {
        steps' := Follow(first, steps, Break(pid), pid);
        steps' := GiveUp(pid, q, later, first, steps');
        return Failure(DependencyUnavailable), steps';
      }
      var candidates, raw := generation.candidates, generation.raw;
      ghost var finish := Finish(pid, raw, candidates, answerId, later);
      var grounded := Grounded(alphabet, raw, candidates);
      if Citations.Lawful(alphabet) {
        GroundedPersists(alphabet, repository.Tables(), KeyOf(q), q.user, conversation, generation, answerId, later);
      }
      if grounded.Failure? {
        steps' := Follow(first, steps, finish, pid);
        if grounded.error.InvalidCitations? {
          steps' := GiveUp(pid, q, later, first, steps');
          return Failure(DependencyUnavailable), steps';
        }
        return Failure(OfCitations(grounded.error)), steps';
      }
      var answer := repository.PersistAnswer(KeyOf(q), q.user, conversation, grounded.value, candidates, answerId,
                                             later);
      steps' := Follow(first, steps, finish, pid);
      if answer.Failure? {
        return Failure(OfRepository(answer.error)), steps';
      }
      return Success(answer.value), steps';
    }

    /** What is done about a failed dependency. */
    method GiveUp(ghost pid: nat, q: Request, later: int, ghost first: System, ghost steps: seq<Step>)
      returns (ghost steps': seq<Step>)
      requires first.alphabet == alphabet && Sys() == Exec(first, steps) && OwnSteps(steps, pid)
      requires pid in executors && executors[pid] == Failing(q)
      modifies this, repository
      ensures OwnSteps(steps', pid) && Sys() == Exec(first, steps') && pid !in executors && returned == old(returned)
      ensures IsClaimed(old(repository.Tables()), q) ==> CanBeAskedAgain(repository.Tables(), q)
    {
      if IsClaimed(repository.Tables(), q) { MarkedCanBeAskedAgain(repository.Tables(), q, later); }
      repository.MarkRetryableFailure(KeyOf(q), later);
      steps' := Follow(first, steps, Fail(pid, later), pid);
    }
  }

  lemma ClaimKeepsMintable(db: Db, q: Request, clock: int, now: int, minted: Id, message: Id, id: Id)
    requires Mintable(db, id) && id != minted && id != message && id != q.request
    ensures var r := QueryRuns.ClaimQuery(db, q, clock, now, minted, message); r.Success? ==> Mintable(r.value.0, id)
  {
    var resolved := Resolved(db, q, minted);
    if resolved.Success? { RunClaimKeepsMintable(resolved.value.0, q, resolved.value.1, clock, now, id); }
  }

  lemma RunClaimKeepsMintable(db: Db, q: Request, conversation: Id, clock: int, now: int, id: Id)
    requires Mintable(db, id) && id != q.request
    ensures var r := RunClaim(db, q, conversation, clock, now); r.Success? ==> Mintable(r.value.0, id)
  {
  }

  lemma {:induction false} ExecLast(s: System, steps: seq<Step>, step: Step)
    ensures Exec(s, steps + [step]) == Do(Exec(s, steps), step)
    decreases |steps|
  {
    ExecAppends(s, steps, [step]);
    assert Exec(Exec(s, steps), [step]) == Do(Exec(s, steps), step) by {
      assert [step][1..] == [];
    }
  }
}
