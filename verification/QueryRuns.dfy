/**
 One answer per request: `claim_query`, `persist_answer`, `mark_retryable_failure` and
 `_load_answer`, and the executions of `QueryService.answer` that call them.

 Each repository method is one transaction, hence one step; an execution may stop between two of
 them, and any number of executions of the same request may run at once. A run is a list of steps;
 a step that cannot be taken changes nothing.
 */
module QueryRuns {
  import opened Wrappers
  import opened Identity
  import opened Citations

  // ---------------------------------------------------------------------------
  // Tables
  // ---------------------------------------------------------------------------

  datatype Role = User | Assistant

  /** `UNIQUE (tenant_id, request_id, role)` */
  datatype MessageKey = MessageKey(run: RunKey, role: Role)

  datatype Message = Message(
    id: Id, conversation: Id, user: Id, content: string, refused: bool, reason: Option<string>, createdAt: int)

  datatype UserKey = UserKey(tenant: Id, user: Id)

  datatype UserRow = UserRow(external: string, active: bool)

  /** `UNIQUE (tenant_id, user_id, channel)` */
  datatype ConversationKey = ConversationKey(tenant: Id, user: Id, channel: string)

  datatype Conversation = Conversation(id: Id, active: bool)

  datatype RunStatus = InProgress | Completed | CompletedWithRefusal | RetryableFailed | FinalFailed

  datatype Run = Run(
    fingerprint: Fingerprint, status: RunStatus, attempt: nat, conversation: Id, result: Option<Id>, updatedAt: int)

  datatype Candidate = Candidate(
    chunk: Id, document: Id, version: Id, versionNumber: int, title: string, content: string, hash: string,
    locatorType: string, locatorValue: string, effectiveAt: Option<int>)

  datatype CitationRow = CitationRow(
    message: Id, index: nat, chunk: Id, document: Id, version: Id, versionNumber: int, title: string, hash: string,
    locatorType: string, locatorValue: string, effectiveAt: Option<int>)

  datatype Citation = Citation(
    index: nat, document: Id, versionNumber: int, title: string,
    locatorType: string, locatorValue: string, effectiveAt: Option<int>)

  datatype Answer = Answer(
    message: Id, text: string, citations: seq<Citation>, refused: bool, reason: string,
    conversation: Id, createdAt: int)

  /** `issued` holds every identifier that has been handed out, so that a fresh one can be told. */
  datatype Db = Db(
    users: map<UserKey, UserRow>,
    conversations: map<ConversationKey, Conversation>,
    runs: map<RunKey, Run>,
    messages: map<MessageKey, Message>,
    citations: seq<CitationRow>,
    issued: set<Id>)

  // ---------------------------------------------------------------------------
  // claim_query
  // ---------------------------------------------------------------------------

  /** A request with its question already normalized. */
  datatype Request = Request(
    tenant: Id, request: Id, user: Id, conversation: Option<Id>, question: string, knowledgeBases: set<Id>,
    channel: string)

  /** The fields the SHA-256 fingerprint is taken of; the digest is taken to be injective. */
  datatype Fingerprint = Fingerprint(
    tenant: Id, user: Id, conversation: Option<Id>, question: string, knowledgeBases: set<Id>, channel: string)

  datatype Error = NotFound | PermissionDenied | RequestConflict | RequestInProgress | UniqueViolation | IndexError

  datatype Claim = Fresh(conversation: Id) | Replay(conversation: Id, answer: Answer)

  function FingerprintOf(q: Request): Fingerprint {
    Fingerprint(q.tenant, q.user, q.conversation, q.question, q.knowledgeBases, q.channel)
  }

  function KeyOf(q: Request): RunKey {
    RunKey(q.tenant, q.request)
  }

  predicate Done(status: RunStatus) {
    status == RunStatus.Completed || status == CompletedWithRefusal
  }

  predicate Available(conversations: map<ConversationKey, Conversation>, q: Request, id: Id) {
    exists key :: key in conversations && key.tenant == q.tenant && key.user == q.user
                  && conversations[key] == Conversation(id, true)
  }

  /** The conversation asked for, or the caller's own of the channel, made if there is none. */
  function Resolved(db: Db, q: Request, minted: Id): Result<(Db, Id), Error> {
    match q.conversation
    case Some(id) =>
      if Available(db.conversations, q, id) then Success((db, id)) else Failure(PermissionDenied)
    case None =>
      var key := ConversationKey(q.tenant, q.user, q.channel);
      var id := if key in db.conversations then db.conversations[key].id else minted;
      var conversations := db.conversations[key := Conversation(id, true)];
      Success((db.(conversations := conversations, issued := db.issued + {minted}), id))
  }

  function CitationOf(row: CitationRow): Citation {
    Citation(row.index, row.document, row.versionNumber, row.title, row.locatorType, row.locatorValue, row.effectiveAt)
  }

  /** `WHERE message_id = id` */
  function RowsOf(rows: seq<CitationRow>, id: Id): seq<CitationRow> {
    if rows == [] then []
    else RowsOf(rows[..|rows| - 1], id) + if rows[|rows| - 1].message == id then [rows[|rows| - 1]] else []
  }

  /** `ORDER BY citation_index` */
  function ByIndex(rows: seq<CitationRow>): (r: seq<CitationRow>)
    ensures |r| == |rows|
  {
    if rows == [] then [] else Inserted(ByIndex(rows[..|rows| - 1]), rows[|rows| - 1])
  }

  function Inserted(rows: seq<CitationRow>, row: CitationRow): (r: seq<CitationRow>)
    ensures |r| == |rows| + 1
  {
    if rows == [] || rows[|rows| - 1].index <= row.index then rows + [row]
    else Inserted(rows[..|rows| - 1], row) + [rows[|rows| - 1]]
  }

  function Each(rows: seq<CitationRow>): seq<Citation> {
    seq(|rows|, i requires 0 <= i < |rows| => CitationOf(rows[i]))
  }

  /** `COALESCE(refusal_reason, '')` */
  function ReasonText(reason: Option<string>): string {
    match reason case None => "" case Some(text) => text
  }

  /** The answer that the rows of a message spell out. */
  function AnswerAt(db: Db, key: MessageKey): Answer
    requires key in db.messages
  {
    var m := db.messages[key];
    Answer(m.id, m.content, Each(ByIndex(RowsOf(db.citations, m.id))), m.refused, ReasonText(m.reason), m.conversation,
           m.createdAt)
  }

  ghost predicate IsAnswer(db: Db, tenant: Id, id: Id, key: MessageKey) {
    key in db.messages && key.run.tenant == tenant && key.role == Assistant && db.messages[key].id == id
  }

  ghost function LoadAnswer(db: Db, tenant: Id, message: Option<Id>): Result<Answer, Error> {
    match message
    case None => Failure(RequestInProgress)
    case Some(id) =>
      if exists key :: IsAnswer(db, tenant, id, key) then
        var key :| IsAnswer(db, tenant, id, key);
        Success(AnswerAt(db, key))
      else Failure(NotFound)
  }

  /** What the run of a request allows a new caller to do: replay its answer, take it over, or nothing. */
  ghost function Reclaimed(db: Db, q: Request, run: Run, conversation: Id, clock: int, now: int)
    : Result<(Db, Claim), Error>
  {
    if run.fingerprint != FingerprintOf(q) then Failure(RequestConflict)
    else if Done(run.status) then
      match LoadAnswer(db, q.tenant, run.result)
      case Success(answer) => Success((db, Replay(conversation, answer)))
      case Failure(e) => Failure(e)
    else if run.status == InProgress && clock - run.updatedAt < 30 then Failure(RequestInProgress)
    else if run.status == FinalFailed then Failure(RequestConflict)
    else
      var taken := run.(status := InProgress, attempt := run.attempt + 1, updatedAt := now,
                        conversation := conversation);
      Success((db.(runs := db.runs[KeyOf(q) := taken]), Fresh(conversation)))
  }

  /** `INSERT INTO messages ... 'USER' ... ON CONFLICT DO NOTHING` */
  function WithQuestion(db: Db, q: Request, conversation: Id, message: Id, now: int): Db {
    var key := MessageKey(KeyOf(q), User);
    if key in db.messages then db
    else
      db.(messages := db.messages[key := Message(message, conversation, q.user, q.question, false, None, now)],
          issued := db.issued + {message})
  }

  /** The run row: a new one, or what the existing one allows. */
  ghost function RunClaim(db: Db, q: Request, conversation: Id, clock: int, now: int): Result<(Db, Claim), Error> {
    if KeyOf(q) in db.runs then Reclaimed(db, q, db.runs[KeyOf(q)], conversation, clock, now)
    else
      Success((db.(runs := db.runs[KeyOf(q) := Run(FingerprintOf(q), InProgress, 1, conversation, None, now)],
                   issued := db.issued + {q.request}),
               Fresh(conversation)))
  }

  /** The whole transaction. A failure rolls it back, so it carries no tables. */
  ghost function ClaimQuery(db: Db, q: Request, clock: int, now: int, minted: Id, message: Id)
    : Result<(Db, Claim), Error>
  {
    var user := UserKey(q.tenant, q.user);
    if user !in db.users then Failure(NotFound)
    else if !db.users[user].active then Failure(PermissionDenied)
    else
      match Resolved(db, q, minted)
      case Failure(e) => Failure(e)
      case Success((db1, conversation)) =>
        match RunClaim(db1, q, conversation, clock, now)
        case Failure(e) => Failure(e)
        case Success((db2, Replay(c, answer))) => Success((db2, Replay(c, answer)))
        case Success((db2, Fresh(c))) => Success((WithQuestion(db2, q, c, message, now), Fresh(c)))
  }

  // ---------------------------------------------------------------------------
  // persist_answer and mark_retryable_failure
  // ---------------------------------------------------------------------------

  /** Python's `candidates[i]`, which counts negative indexes from the end. */
  function At(candidates: seq<Candidate>, i: int): Option<Candidate> {
    if 0 <= i < |candidates| then Some(candidates[i])
    else if -|candidates| <= i < 0 then Some(candidates[|candidates| + i])
    else None
  }

  function RowOf(message: Id, index: nat, c: Candidate): CitationRow {
    CitationRow(message, index, c.chunk, c.document, c.version, c.versionNumber, c.title, c.hash,
                c.locatorType, c.locatorValue, c.effectiveAt)
  }

  predicate Resolvable(indexes: seq<int>, candidates: seq<Candidate>) {
    forall k :: 0 <= k < |indexes| ==> At(candidates, indexes[k] - 1).Some?
  }

  /** Row k cites, under the number k, the candidate that the k-th index names. */
  function RowsFor(message: Id, indexes: seq<int>, candidates: seq<Candidate>): seq<CitationRow>
    requires Resolvable(indexes, candidates)
  {
    seq(|indexes|, k requires 0 <= k < |indexes| => RowOf(message, k + 1, At(candidates, indexes[k] - 1).value))
  }

  function PersistAnswer(db: Db, key: RunKey, user: Id, conversation: Id, g: GeneratedAnswer,
                         candidates: seq<Candidate>, message: Id, now: int): Result<(Db, Answer), Error> {
    if MessageKey(key, Assistant) in db.messages then Failure(UniqueViolation)
    else if !Resolvable(g.indexes, candidates) then Failure(IndexError)
    else
      var reason := if g.reason == "" then None else Some(g.reason);
      var rows := RowsFor(message, g.indexes, candidates);
      var status := if g.refused then CompletedWithRefusal else RunStatus.Completed;
      var runs :=
        if key in db.runs
        then db.runs[key := db.runs[key].(status := status, result := Some(message), updatedAt := now)]
        else db.runs;
      Success((
        db.(messages := db.messages[MessageKey(key, Assistant) :=
                                      Message(message, conversation, user, g.answer, g.refused, reason, now)],
            citations := db.citations + rows,
            runs := runs,
            issued := db.issued + {message}),
        Answer(message, g.answer, Each(rows), g.refused, g.reason, conversation, now)))
  }

  function MarkRetryableFailure(db: Db, key: RunKey, now: int): Db {
    if key in db.runs && db.runs[key].status == InProgress
    then db.(runs := db.runs[key := db.runs[key].(status := RetryableFailed, updatedAt := now)])
    else db
  }

  // ---------------------------------------------------------------------------
  // The step system: executions of QueryService.answer
  // ---------------------------------------------------------------------------

  datatype Executor = Working(q: Request, conversation: Id) | Failing(q: Request)

  datatype Return = Return(q: Request, answer: Answer)

  /** `returned` lists every answer that an execution has returned, fresh or replayed. */
  datatype System = System(alphabet: Alphabet, db: Db, executors: map<nat, Executor>, returned: seq<Return>)

  datatype Step =
    | Start(pid: nat, q: Request, clock: int, now: int, minted: Id, message: Id)
    | Break(pid: nat)
    | Finish(pid: nat, raw: GeneratedAnswer, candidates: seq<Candidate>, message: Id, now: int)
    | Fail(pid: nat, now: int)
    | Crash(pid: nat)
    | Accept(g: Acceptance)
    | SetUser(user: UserKey, row: UserRow)
    | CloseConversation(of: ConversationKey)

  function NoEvidence(): GeneratedAnswer {
    GeneratedAnswer("no grounded answer was found", [], true, "NO_RELEVANT_EVIDENCE")
  }

  /** What `AcceptInboundText` of the gateway writes into these tables for one new callback. */
  datatype Acceptance = Acceptance(
    tenant: Id, sender: string, content: string, user: Id, conversation: Id, request: Id, input: Id, now: int)

  predicate Mintable(db: Db, id: Id) {
    id.Minted? && id !in db.issued
  }

  /** What is persisted for a model output: a refusal when nothing was retrieved, else the renumbered answer. */
  function Grounded(a: Alphabet, raw: GeneratedAnswer, candidates: seq<Candidate>)
    : Result<GeneratedAnswer, Citations.Error>
  {
    if candidates == [] then Success(NoEvidence()) else ValidateAndRenumber(a, raw, |candidates|)
  }

  /** The upsert of the sender yields the row with that external ID, or a new one. */
  predicate Upserts(db: Db, g: Acceptance) {
    if UserKey(g.tenant, g.user) in db.users then db.users[UserKey(g.tenant, g.user)].external == g.sender
    else
      && Mintable(db, g.user)
      && forall key :: key in db.users && key.tenant == g.tenant ==> db.users[key].external != g.sender
  }

  /** The identifiers handed out for the acceptance are new and distinct; the user's may be an old one. */
  predicate FreshIds(db: Db, g: Acceptance) {
    && Mintable(db, g.request) && Mintable(db, g.input) && Mintable(db, g.conversation)
    && g.request != g.input && g.conversation != g.request && g.conversation != g.input
    && g.user != g.request && g.user != g.input && g.user != g.conversation
  }

  predicate Acceptable(db: Db, g: Acceptance) {
    var user := UserKey(g.tenant, g.user);
    Upserts(db, g) && FreshIds(db, g) && (user in db.users ==> db.users[user].active)
  }

  /** The sender's WeCom conversation: the existing one, or the new identifier. */
  function Talk(db: Db, g: Acceptance): Id {
    var talk := ConversationKey(g.tenant, g.user, WECOM);
    if talk in db.conversations then db.conversations[talk].id else g.conversation
  }

  function Accepted(db: Db, g: Acceptance): Db {
    var user := UserKey(g.tenant, g.user);
    var key := MessageKey(RunKey(g.tenant, g.request), User);
    db.(users := if user in db.users then db.users else db.users[user := UserRow(g.sender, true)],
        conversations := db.conversations[ConversationKey(g.tenant, g.user, WECOM) := Conversation(Talk(db, g), true)],
        messages := db.messages[key := Message(g.input, Talk(db, g), g.user, g.content, false, None, g.now)],
        issued := db.issued + {g.user, g.conversation, g.request, g.input})
  }

  ghost function StartStep(s: System, pid: nat, q: Request, clock: int, now: int, minted: Id, message: Id): System {
    if pid in s.executors || !Mintable(s.db, minted) || !Mintable(s.db, message) then s
    else if minted == message || message == q.request then s
    else
      match ClaimQuery(s.db, q, clock, now, minted, message)
      case Failure(_) => s
      case Success((db, Fresh(c))) => s.(db := db, executors := s.executors[pid := Working(q, c)])
      case Success((db, Replay(_, answer))) => s.(db := db, returned := s.returned + [Return(q, answer)])
  }

  function FinishStep(s: System, step: Step): System
    requires step.Finish? && step.pid in s.executors
  {
    match s.executors[step.pid]
    case Failing(_) => s
    case Working(q, conversation) =>
      if !Mintable(s.db, step.message) then s
      else
        match Grounded(s.alphabet, step.raw, step.candidates)
        case Failure(InvalidCitations) => s.(executors := s.executors[step.pid := Failing(q)])
        case Failure(KeyError) => s.(executors := s.executors - {step.pid})
        case Success(g) =>
          match PersistAnswer(s.db, KeyOf(q), q.user, conversation, g, step.candidates, step.message, step.now)
          case Failure(_) => s.(executors := s.executors - {step.pid})
          case Success((db, answer)) =>
            s.(db := db, executors := s.executors - {step.pid}, returned := s.returned + [Return(q, answer)])
  }

  ghost function Do(s: System, step: Step): System {
    match step
    case Start(pid, q, clock, now, minted, message) => StartStep(s, pid, q, clock, now, minted, message)
    case Break(pid) =>
      if pid in s.executors then s.(executors := s.executors[pid := Failing(s.executors[pid].q)]) else s
    case Finish(pid, _, _, _, _) => if pid in s.executors then FinishStep(s, step) else s
    case Fail(pid, now) =>
      if pid in s.executors && s.executors[pid].Failing? then
        s.(db := MarkRetryableFailure(s.db, KeyOf(s.executors[pid].q), now), executors := s.executors - {pid})
      else s
    case Crash(pid) => s.(executors := s.executors - {pid})
    case Accept(g) => if Acceptable(s.db, g) then s.(db := Accepted(s.db, g)) else s
    case SetUser(user, row) =>
      if IsUuid(user.user) && (user in s.db.users ==> s.db.users[user].external == row.external)
      then s.(db := s.db.(users := s.db.users[user := row])) else s
    case CloseConversation(key) =>
      if key in s.db.conversations
      then s.(db := s.db.(conversations := s.db.conversations[key := s.db.conversations[key].(active := false)]))
      else s
  }

  ghost function Exec(s: System, steps: seq<Step>): System
    decreases |steps|
  {
    if steps == [] then s else Exec(Do(s, steps[0]), steps[1..])
  }

  // ---------------------------------------------------------------------------
  // The invariant
  // ---------------------------------------------------------------------------

  /** The run is finished exactly when the answer is there; then it points to it and says whether it refuses. */
  ghost predicate RunOk(db: Db, key: RunKey)
    requires key in db.runs
  {
    var run := db.runs[key];
    var m := MessageKey(key, Assistant);
    && (Done(run.status) <==> m in db.messages)
    && run.result == (if m in db.messages then Some(db.messages[m].id) else None)
    && (m in db.messages && run.fingerprint.conversation.Some? ==>
          db.messages[m].conversation == run.fingerprint.conversation.value)
    && (m in db.messages ==>
          && db.messages[m].user == run.fingerprint.user
          && (run.status == CompletedWithRefusal <==> db.messages[m].refused))
  }

  ghost predicate MessagesOk(db: Db) {
    && (forall m :: m in db.messages ==> db.messages[m].id in db.issued)
    && (forall m :: m in db.messages && m.role == Assistant ==> m.run in db.runs && db.messages[m].id.Minted?)
    && (forall m, n :: m in db.messages && n in db.messages && db.messages[m].id == db.messages[n].id ==> m == n)
    && (forall i :: 0 <= i < |db.citations| ==> db.citations[i].message in db.issued)
    && (forall key :: key in db.runs ==> key.request in db.issued)
    && (forall m :: m in db.messages ==> m.run.request in db.issued)
  }

  ghost predicate DbOk(db: Db) {
    MessagesOk(db) && forall key :: key in db.runs ==> RunOk(db, key)
  }

  ghost predicate ExecutorOk(db: Db, e: Executor) {
    && KeyOf(e.q) in db.runs
    && db.runs[KeyOf(e.q)].fingerprint == FingerprintOf(e.q)
    && (e.Working? && e.q.conversation.Some? ==> e.conversation == e.q.conversation.value)
  }

  /** What was returned is what the tables say, then and now. */
  ghost predicate ReturnOk(db: Db, r: Return) {
    var m := MessageKey(KeyOf(r.q), Assistant);
    && m in db.messages && KeyOf(r.q) in db.runs
    && db.runs[KeyOf(r.q)].fingerprint == FingerprintOf(r.q)
    && r.answer == AnswerAt(db, m)
  }

  ghost predicate Inv(s: System) {
    && DbOk(s.db)
    && (forall key :: key in s.db.users ==> IsUuid(key.user))
    && (forall pid :: pid in s.executors ==> ExecutorOk(s.db, s.executors[pid]))
    && (forall i :: 0 <= i < |s.returned| ==> ReturnOk(s.db, s.returned[i]))
  }

  /**
   What a transaction never takes back: messages stay as they are, a run keeps its fingerprint, a
   finished run stays as it is, and citations are only added, for new messages.
   */
  ghost predicate Extends(db: Db, t: Db) {
    && (forall m :: m in db.messages ==> m in t.messages && t.messages[m] == db.messages[m])
    && (forall key :: key in db.runs ==>
          && key in t.runs && t.runs[key].fingerprint == db.runs[key].fingerprint
          && (Done(db.runs[key].status) ==>
                t.runs[key].status == db.runs[key].status && t.runs[key].result == db.runs[key].result))
    && db.citations <= t.citations
    && (forall i :: |db.citations| <= i < |t.citations| ==> t.citations[i].message !in db.issued)
    && db.issued <= t.issued
  }

  lemma {:induction false} RowsOfAppend(rows: seq<CitationRow>, more: seq<CitationRow>, id: Id)
    ensures RowsOf(rows + more, id) == RowsOf(rows, id) + RowsOf(more, id)
    decreases |more|
  {
    if more == [] {
      assert rows + more == rows;
    } else {
      assert (rows + more)[..|rows + more| - 1] == rows + more[..|more| - 1];
      RowsOfAppend(rows, more[..|more| - 1], id);
    }
  }

  lemma {:induction false} RowsOfNone(rows: seq<CitationRow>, id: Id)
    requires forall i :: 0 <= i < |rows| ==> rows[i].message != id
    ensures RowsOf(rows, id) == []
  {
    if rows != [] { RowsOfNone(rows[..|rows| - 1], id); }
  }

  lemma {:induction false} RowsOfAll(rows: seq<CitationRow>, id: Id)
    requires forall i :: 0 <= i < |rows| ==> rows[i].message == id
    ensures RowsOf(rows, id) == rows
  {
    if rows != [] { RowsOfAll(rows[..|rows| - 1], id); }
  }

  lemma {:induction false} ByIndexOfSorted(rows: seq<CitationRow>)
    requires forall i, j :: 0 <= i < j < |rows| ==> rows[i].index <= rows[j].index
    ensures ByIndex(rows) == rows
  {
    if rows != [] { ByIndexOfSorted(rows[..|rows| - 1]); }
  }

  ghost predicate IsByIndex(rows: seq<CitationRow>) {
    forall i, j :: 0 <= i < j < |rows| ==> rows[i].index <= rows[j].index
  }

  lemma {:induction false} InsertedRows(rows: seq<CitationRow>, row: CitationRow)
    ensures multiset(Inserted(rows, row)) == multiset(rows) + multiset{row}
  {
    if rows != [] && rows[|rows| - 1].index > row.index {
      var front, last := rows[..|rows| - 1], rows[|rows| - 1];
      assert rows == front + [last];
      InsertedRows(front, row);
    }
  }

  /** The row is put in its place. */
  lemma {:induction false} InsertedByIndex(rows: seq<CitationRow>, row: CitationRow)
    requires IsByIndex(rows)
    ensures IsByIndex(Inserted(rows, row))
  {
    if rows != [] && rows[|rows| - 1].index > row.index {
      var front, last := rows[..|rows| - 1], rows[|rows| - 1];
      InsertedByIndex(front, row);
      var r := Inserted(front, row);
      InsertedRows(front, row);
      forall i | 0 <= i < |r| ensures r[i].index <= last.index {
        assert r[i] in multiset(r);
        if r[i] != row { assert r[i] in front; }
      }
    }
  }

  /** Reading the rows of a message gives all of them, in the order of their numbers. */
  lemma {:induction false} ByIndexSorts(rows: seq<CitationRow>)
    ensures IsByIndex(ByIndex(rows)) && multiset(ByIndex(rows)) == multiset(rows)
  {
    if rows != [] {
      var front, last := rows[..|rows| - 1], rows[|rows| - 1];
      assert rows == front + [last];
      ByIndexSorts(front);
      InsertedByIndex(ByIndex(front), last);
      InsertedRows(ByIndex(front), last);
    }
  }

  /** An answer reads the same after every later transaction. */
  lemma AnswerIsStable(db: Db, t: Db, key: MessageKey)
    requires MessagesOk(db) && Extends(db, t) && key in db.messages
    ensures AnswerAt(t, key) == AnswerAt(db, key)
  {
    var id := db.messages[key].id;
    var more := t.citations[|db.citations|..];
    assert t.citations == db.citations + more;
    assert id in db.issued && forall i :: 0 <= i < |more| ==> more[i] == t.citations[|db.citations| + i];
    RowsOfAppend(db.citations, more, id);
    RowsOfNone(more, id);
    assert RowsOf(t.citations, id) == RowsOf(db.citations, id);
  }

  lemma NewRowsReadBack(before: seq<CitationRow>, rows: seq<CitationRow>, message: Id)
    requires forall i :: 0 <= i < |before| ==> before[i].message != message
    requires forall i :: 0 <= i < |rows| ==> rows[i].message == message && rows[i].index == i + 1
    ensures ByIndex(RowsOf(before + rows, message)) == rows
  {
    RowsOfAppend(before, rows, message);
    RowsOfNone(before, message);
    RowsOfAll(rows, message);
    ByIndexOfSorted(rows);
    assert RowsOf(before + rows, message) == rows;
  }

  /** What `persist_answer` returns is what `_load_answer` reads back. */
  lemma PersistedAnswerReadsBack(db: Db, key: RunKey, user: Id, conversation: Id, g: GeneratedAnswer,
                                 candidates: seq<Candidate>, message: Id, now: int)
    requires MessagesOk(db) && message !in db.issued
    requires PersistAnswer(db, key, user, conversation, g, candidates, message, now).Success?
    ensures var (t, answer) := PersistAnswer(db, key, user, conversation, g, candidates, message, now).value;
            AnswerAt(t, MessageKey(key, Assistant)) == answer
  {
    NewRowsReadBack(db.citations, RowsFor(message, g.indexes, candidates), message);
  }

  // ---------------------------------------------------------------------------
  // Every transaction keeps the tables in order
  // ---------------------------------------------------------------------------

  datatype Aspect = MessagesAspect | RunsAspect | ExtensionAspect

  ghost predicate AspectOk(db: Db, t: Db, aspect: Aspect) {
    match aspect
    case MessagesAspect => MessagesOk(t)
    case RunsAspect => forall key :: key in t.runs ==> RunOk(t, key)
    case ExtensionAspect => Extends(db, t)
  }

  /** The tables `t` are in order and take nothing back of `db`. */
  ghost predicate Moves(db: Db, t: Db) {
    forall aspect :: AspectOk(db, t, aspect)
  }

  lemma MovesMeans(db: Db, t: Db)
    requires Moves(db, t)
    ensures DbOk(t) && Extends(db, t)
  {
    assert AspectOk(db, t, MessagesAspect) && AspectOk(db, t, RunsAspect) && AspectOk(db, t, ExtensionAspect);
  }

  lemma NothingMoves(db: Db)
    requires DbOk(db)
    ensures Moves(db, db)
  {
  }

  lemma MovesOn(db: Db, t: Db, u: Db)
    requires Moves(db, t) && Moves(t, u)
    ensures Moves(db, u)
  {
    MovesMeans(db, t);
    MovesMeans(t, u);
    ExtendsTransitive(db, t, u);
  }

  lemma PersistKeepsMessages(db: Db, t: Db, key: MessageKey, rows: seq<CitationRow>)
    requires MessagesOk(db) && key !in db.messages && t.runs.Keys == db.runs.Keys && t.citations == db.citations + rows
    requires key in t.messages && t.messages == db.messages[key := t.messages[key]]
    requires t.messages[key].id !in db.issued && t.messages[key].id.Minted?
    requires t.issued == db.issued + {t.messages[key].id}
    requires key.role == Assistant && key.run in db.runs
    requires forall i :: 0 <= i < |rows| ==> rows[i].message == t.messages[key].id
    ensures MessagesOk(t)
  {
    AddedMessageKeepsMessages(db, t.(citations := db.citations), key);
    AddedRowsKeepMessages(t.(citations := db.citations), rows, t.messages[key].id);
  }

  /** The tables after an answer was stored. */
  ghost predicate IsPersisted(db: Db, t: Db, key: RunKey, conversation: Id, message: Id, rows: seq<CitationRow>) {
    var m := MessageKey(key, Assistant);
    && key in db.runs && m !in db.messages
    && m in t.messages && t.messages == db.messages[m := t.messages[m]]
    && t.messages[m].id == message && t.messages[m].conversation == conversation
    && t.citations == db.citations + rows && (forall i :: 0 <= i < |rows| ==> rows[i].message == message)
    && t.issued == db.issued + {message}
    && key in t.runs && Done(t.runs[key].status) && t.runs[key].result == Some(message)
    && t.runs == db.runs[key := t.runs[key]] && t.runs[key].fingerprint == db.runs[key].fingerprint
    && t.messages[m].user == db.runs[key].fingerprint.user
    && (t.runs[key].status == CompletedWithRefusal <==> t.messages[m].refused)
  }

  lemma PersistedKeepsRuns(db: Db, t: Db, key: RunKey, conversation: Id, message: Id, rows: seq<CitationRow>)
    requires (forall k :: k in db.runs ==> RunOk(db, k)) && IsPersisted(db, t, key, conversation, message, rows)
    requires db.runs[key].fingerprint.conversation.Some? ==> conversation == db.runs[key].fingerprint.conversation.value
    ensures forall k :: k in t.runs ==> RunOk(t, k)
  {
    forall k | k in t.runs ensures RunOk(t, k) { assert RunOk(db, k); }
  }

  lemma PersistedExtends(db: Db, t: Db, key: RunKey, conversation: Id, message: Id, rows: seq<CitationRow>)
    requires RunOkIn(db, key) && IsPersisted(db, t, key, conversation, message, rows) && message !in db.issued
    ensures Extends(db, t)
  {
    assert forall i :: |db.citations| <= i < |t.citations| ==> t.citations[i] == rows[i - |db.citations|];
  }

  ghost predicate RunOkIn(db: Db, key: RunKey) {
    key in db.runs && RunOk(db, key)
  }

  lemma PersistKeepsDb(db: Db, t: Db, key: RunKey, user: Id, conversation: Id, g: GeneratedAnswer,
                       candidates: seq<Candidate>, message: Id, now: int)
    requires DbOk(db) && Mintable(db, message) && key in db.runs && user == db.runs[key].fingerprint.user
    requires db.runs[key].fingerprint.conversation.Some? ==> conversation == db.runs[key].fingerprint.conversation.value
    requires PersistAnswer(db, key, user, conversation, g, candidates, message, now).Success?
    requires t == PersistAnswer(db, key, user, conversation, g, candidates, message, now).value.0
    ensures Moves(db, t)
  {
    var rows := RowsFor(message, g.indexes, candidates);
    assert IsPersisted(db, t, key, conversation, message, rows);
    PersistKeepsMessages(db, t, MessageKey(key, Assistant), rows);
    PersistedKeepsRuns(db, t, key, conversation, message, rows);
    PersistedExtends(db, t, key, conversation, message, rows);
  }

  lemma AddedRowsKeepMessages(db: Db, rows: seq<CitationRow>, message: Id)
    requires MessagesOk(db) && message in db.issued && forall i :: 0 <= i < |rows| ==> rows[i].message == message
    ensures MessagesOk(db.(citations := db.citations + rows))
  {}

  lemma AddedMessageKeepsMessages(db: Db, t: Db, key: MessageKey)
    requires MessagesOk(db) && key !in db.messages && t.runs.Keys == db.runs.Keys && t.citations == db.citations
    requires key in t.messages && t.messages == db.messages[key := t.messages[key]]
    requires t.messages[key].id !in db.issued && db.issued + {t.messages[key].id, key.run.request} <= t.issued
    requires key.role == Assistant ==> key.run in db.runs && t.messages[key].id.Minted?
    ensures MessagesOk(t)
  {}

  lemma QuestionKeepsDb(db: Db, q: Request, conversation: Id, message: Id, now: int)
    requires DbOk(db) && message !in db.issued && q.request in db.issued
    ensures Moves(db, WithQuestion(db, q, conversation, message, now))
  {
    var t := WithQuestion(db, q, conversation, message, now);
    if MessageKey(KeyOf(q), User) !in db.messages {
      AddedMessageKeepsMessages(db, t, MessageKey(KeyOf(q), User));
      forall k | k in t.runs ensures RunOk(t, k) { assert RunOk(db, k); }
    }
  }

  lemma LoadedAnswer(db: Db, key: RunKey)
    requires DbOk(db) && key in db.runs && Done(db.runs[key].status)
    ensures MessageKey(key, Assistant) in db.messages
    ensures LoadAnswer(db, key.tenant, db.runs[key].result) == Success(AnswerAt(db, MessageKey(key, Assistant)))
  {
    assert RunOk(db, key);
    assert IsAnswer(db, key.tenant, db.messages[MessageKey(key, Assistant)].id, MessageKey(key, Assistant));
  }

  lemma TakeOverKeepsDb(db: Db, key: RunKey, run: Run)
    requires DbOk(db) && (key in db.runs ==> run.fingerprint == db.runs[key].fingerprint && !Done(db.runs[key].status)
                                               && run.result == db.runs[key].result)
    requires key !in db.runs ==> run.result == None
    requires !Done(run.status)
    ensures Moves(db, db.(runs := db.runs[key := run], issued := db.issued + {key.request}))
  {
    var t := db.(runs := db.runs[key := run], issued := db.issued + {key.request});
    if key in db.runs { assert RunOk(db, key); }
    forall k | k in t.runs ensures RunOk(t, k) { if k != key { assert RunOk(db, k); } }
  }

  lemma MarkKeepsDb(db: Db, key: RunKey, now: int)
    requires DbOk(db)
    ensures Moves(db, MarkRetryableFailure(db, key, now))
  {
    NothingMoves(db);
    if key in db.runs && db.runs[key].status == InProgress {
      assert RunOk(db, key);
      TakeOverKeepsDb(db, key, db.runs[key].(status := RetryableFailed, updatedAt := now));
      assert db.issued + {key.request} == db.issued;
    }
  }

  /** Tables that differ in users, conversations and issued identifiers only. */
  lemma SideTablesKeepDb(db: Db, t: Db)
    requires DbOk(db) && t.runs == db.runs && t.messages == db.messages
    requires t.citations == db.citations && db.issued <= t.issued
    ensures Moves(db, t)
  {
    forall k | k in t.runs ensures RunOk(t, k) { assert RunOk(db, k); }
  }

  lemma ExtendsTransitive(db: Db, t: Db, u: Db)
    requires Extends(db, t) && Extends(t, u)
    ensures Extends(db, u)
  {
    forall i | |db.citations| <= i < |u.citations| ensures u.citations[i].message !in db.issued {
      if i < |t.citations| { assert u.citations[i] == t.citations[i]; }
    }
  }

  lemma TakeOverByReclaim(db: Db, q: Request, conversation: Id, clock: int, now: int)
    requires DbOk(db) && KeyOf(q) in db.runs
    requires var r := Reclaimed(db, q, db.runs[KeyOf(q)], conversation, clock, now); r.Success? && r.value.1.Fresh?
    ensures var (t, claim) := Reclaimed(db, q, db.runs[KeyOf(q)], conversation, clock, now).value;
            Moves(db, t) && t.issued == db.issued && KeyOf(q) in t.runs
              && t.runs[KeyOf(q)].fingerprint == FingerprintOf(q)
  {
    var key := KeyOf(q);
    var run := db.runs[key];
    var taken := run.(status := InProgress, attempt := run.attempt + 1, updatedAt := now, conversation := conversation);
    assert !Done(run.status);
    TakeOverKeepsDb(db, key, taken);
    assert db.issued + {key.request} == db.issued;
  }

  lemma ReplayByReclaim(db: Db, q: Request, conversation: Id, clock: int, now: int)
    requires DbOk(db) && KeyOf(q) in db.runs
    requires var r := Reclaimed(db, q, db.runs[KeyOf(q)], conversation, clock, now); r.Success? && r.value.1.Replay?
    ensures var (t, claim) := Reclaimed(db, q, db.runs[KeyOf(q)], conversation, clock, now).value;
            t == db && ReturnOk(db, Return(q, claim.answer))
  {
    LoadedAnswer(db, KeyOf(q));
  }

  /** What a committed claim leaves behind, and what it answers. */
  ghost predicate ClaimOk(db: Db, q: Request, t: Db, claim: Claim) {
    && Moves(db, t)
    && match claim
       case Fresh(c) => ExecutorOk(t, Working(q, c))
       case Replay(_, answer) => ReturnOk(t, Return(q, answer))
  }

  /** The claim of the run row, in tables whose conversation is resolved. */
  lemma RunClaimKeepsDb(db: Db, q: Request, conversation: Id, clock: int, now: int)
    requires DbOk(db) && (q.conversation.Some? ==> conversation == q.conversation.value)
    ensures var r := RunClaim(db, q, conversation, clock, now);
            r.Success? ==> ClaimOk(db, q, r.value.0, r.value.1) && r.value.0.issued <= db.issued + {q.request}
                           && (r.value.1.Fresh? ==> r.value.1.conversation == conversation)
  {
    if KeyOf(q) in db.runs {
      var r := Reclaimed(db, q, db.runs[KeyOf(q)], conversation, clock, now);
      if r.Success? && r.value.1.Fresh? { TakeOverByReclaim(db, q, conversation, clock, now); }
      if r.Success? && r.value.1.Replay? { ReplayByReclaim(db, q, conversation, clock, now); NothingMoves(db); }
    } else {
      TakeOverKeepsDb(db, KeyOf(q), Run(FingerprintOf(q), InProgress, 1, conversation, None, now));
    }
  }

  lemma ClaimKeepsDb(db: Db, q: Request, clock: int, now: int, minted: Id, message: Id)
    requires DbOk(db) && Mintable(db, minted) && Mintable(db, message) && minted != message && message != q.request
    ensures var r := ClaimQuery(db, q, clock, now, minted, message);
            r.Success? ==> ClaimOk(db, q, r.value.0, r.value.1)
  {
    if ClaimQuery(db, q, clock, now, minted, message).Success? {
      var (db1, conversation) := Resolved(db, q, minted).value;
      SideTablesKeepDb(db, db1);
      MovesMeans(db, db1);
      RunClaimKeepsDb(db1, q, conversation, clock, now);
      var (db2, claim) := RunClaim(db1, q, conversation, clock, now).value;
      MovesOn(db, db1, db2);
      if claim.Fresh? {
        MovesMeans(db1, db2);
        QuestionKeepsDb(db2, q, conversation, message, now);
        MovesOn(db, db2, WithQuestion(db2, q, conversation, message, now));
      }
    }
  }

  // ---------------------------------------------------------------------------
  // Every step keeps the invariant
  // ---------------------------------------------------------------------------

  lemma ReturnStays(db: Db, t: Db, r: Return)
    requires MessagesOk(db) && Extends(db, t) && ReturnOk(db, r)
    ensures ReturnOk(t, r)
  {
    AnswerIsStable(db, t, MessageKey(KeyOf(r.q), Assistant));
  }

  datatype Part = TablesPart | UsersPart | ExecutorsPart | ReturnsPart | HistoryPart

  ghost predicate PartOk(s: System, t: System, part: Part) {
    match part
    case TablesPart => Moves(s.db, t.db)
    case UsersPart => forall key :: key in t.db.users ==> IsUuid(key.user)
    case ExecutorsPart => forall pid :: pid in t.executors ==> ExecutorOk(t.db, t.executors[pid])
    case ReturnsPart => forall i :: 0 <= i < |t.returned| ==> ReturnOk(t.db, t.returned[i])
    case HistoryPart => s.returned <= t.returned
  }

  /** The system `t` is in order and takes nothing back of `s`. */
  ghost predicate Follows(s: System, t: System) {
    forall part :: PartOk(s, t, part)
  }

  lemma FollowsMeans(s: System, t: System)
    requires Follows(s, t)
    ensures Inv(t) && Extends(s.db, t.db) && s.returned <= t.returned
  {
    assert PartOk(s, t, TablesPart) && PartOk(s, t, UsersPart) && PartOk(s, t, ExecutorsPart);
    assert PartOk(s, t, ReturnsPart) && PartOk(s, t, HistoryPart);
    MovesMeans(s.db, t.db);
  }

  lemma ReturnsStay(s: System, t: System)
    requires Inv(s) && Extends(s.db, t.db)
    requires s.returned <= t.returned && forall i :: |s.returned| <= i < |t.returned| ==> ReturnOk(t.db, t.returned[i])
    ensures forall i :: 0 <= i < |t.returned| ==> ReturnOk(t.db, t.returned[i])
  {
    forall i | 0 <= i < |t.returned| ensures ReturnOk(t.db, t.returned[i]) {
      if i < |s.returned| { ReturnStays(s.db, t.db, s.returned[i]); }
    }
  }

  lemma ExtensionKeepsInv(s: System, t: System)
    requires Inv(s) && Moves(s.db, t.db)
    requires forall key :: key in t.db.users ==> key in s.db.users || IsUuid(key.user)
    requires forall pid :: pid in t.executors ==>
               (pid in s.executors && t.executors[pid] == s.executors[pid]) || ExecutorOk(t.db, t.executors[pid])
    requires s.returned <= t.returned && forall i :: |s.returned| <= i < |t.returned| ==> ReturnOk(t.db, t.returned[i])
    ensures Follows(s, t)
  {
    MovesMeans(s.db, t.db);
    ReturnsStay(s, t);
  }

  lemma ClaimUsers(db: Db, q: Request, clock: int, now: int, minted: Id, message: Id)
    ensures var r := ClaimQuery(db, q, clock, now, minted, message); r.Success? ==> r.value.0.users == db.users
  {
    var resolved := Resolved(db, q, minted);
    if resolved.Success? { RunClaimUsers(resolved.value.0, q, resolved.value.1, clock, now); }
  }

  lemma RunClaimUsers(db: Db, q: Request, conversation: Id, clock: int, now: int)
    ensures var r := RunClaim(db, q, conversation, clock, now); r.Success? ==> r.value.0.users == db.users
  {}

  lemma StartFollows(s: System, step: Step)
    requires Inv(s) && step.Start?
    ensures Follows(s, Do(s, step))
  {
    var t := Do(s, step);
    NothingMoves(s.db);
    if t != s {
      ClaimKeepsDb(s.db, step.q, step.clock, step.now, step.minted, step.message);
      ClaimUsers(s.db, step.q, step.clock, step.now, step.minted, step.message);
      var (db, claim) := ClaimQuery(s.db, step.q, step.clock, step.now, step.minted, step.message).value;
      assert ClaimOk(s.db, step.q, db, claim);
    }
    ExtensionKeepsInv(s, t);
  }

  lemma PersistedFollows(s: System, t: System, pid: nat, q: Request, c: Id, g: GeneratedAnswer,
                         candidates: seq<Candidate>,
                         message: Id, now: int)
    requires Inv(s) && pid in s.executors && s.executors[pid] == Working(q, c) && Mintable(s.db, message)
    requires PersistAnswer(s.db, KeyOf(q), q.user, c, g, candidates, message, now).Success?
    requires var (db, answer) := PersistAnswer(s.db, KeyOf(q), q.user, c, g, candidates, message, now).value;
             t == s.(db := db, executors := s.executors - {pid}, returned := s.returned + [Return(q, answer)])
    ensures Follows(s, t)
  {
    assert ExecutorOk(s.db, s.executors[pid]);
    PersistKeepsDb(s.db, t.db, KeyOf(q), q.user, c, g, candidates, message, now);
    PersistedAnswerReadsBack(s.db, KeyOf(q), q.user, c, g, candidates, message, now);
    assert ReturnOk(t.db, t.returned[|s.returned|]);
    ExtensionKeepsInv(s, t);
  }

  lemma FinishFollows(s: System, step: Step)
    requires Inv(s) && step.Finish?
    ensures Follows(s, Do(s, step))
  {
    var t := Do(s, step);
    if t.returned != s.returned {
      var g := Grounded(s.alphabet, step.raw, step.candidates).value;
      var Working(q, c) := s.executors[step.pid];
      PersistedFollows(s, t, step.pid, q, c, g, step.candidates, step.message, step.now);
    } else {
      NothingMoves(s.db);
      if step.pid in s.executors { assert ExecutorOk(s.db, s.executors[step.pid]); }
      ExtensionKeepsInv(s, t);
    }
  }

  lemma AcceptMoves(db: Db, t: Db, g: Acceptance)
    requires DbOk(db) && Acceptable(db, g) && t == Accepted(db, g)
    ensures Moves(db, t)
  {
    AddedMessageKeepsMessages(db, t, MessageKey(RunKey(g.tenant, g.request), User));
    forall k | k in t.runs ensures RunOk(t, k) { assert RunOk(db, k); }
  }

  lemma AcceptFollows(s: System, g: Acceptance)
    requires Inv(s)
    ensures Follows(s, Do(s, Accept(g)))
  {
    NothingMoves(s.db);
    if Acceptable(s.db, g) { AcceptMoves(s.db, Accepted(s.db, g), g); }
    ExtensionKeepsInv(s, Do(s, Accept(g)));
  }

  lemma UserFollows(s: System, user: UserKey, row: UserRow)
    requires Inv(s)
    ensures Follows(s, Do(s, SetUser(user, row)))
  {
    SideTablesKeepDb(s.db, Do(s, SetUser(user, row)).db);
    ExtensionKeepsInv(s, Do(s, SetUser(user, row)));
  }

  lemma CloseFollows(s: System, key: ConversationKey)
    requires Inv(s)
    ensures Follows(s, Do(s, CloseConversation(key)))
  {
    SideTablesKeepDb(s.db, Do(s, CloseConversation(key)).db);
    ExtensionKeepsInv(s, Do(s, CloseConversation(key)));
  }

  lemma EndFollows(s: System, step: Step)
    requires Inv(s) && (step.Fail? || step.Break? || step.Crash?)
    ensures Follows(s, Do(s, step))
  {
    NothingMoves(s.db);
    if step.pid in s.executors {
      assert ExecutorOk(s.db, s.executors[step.pid]);
      if step.Fail? { MarkKeepsDb(s.db, KeyOf(s.executors[step.pid].q), step.now); }
    }
    ExtensionKeepsInv(s, Do(s, step));
  }

  lemma StepFollows(s: System, step: Step)
    requires Inv(s)
    ensures Follows(s, Do(s, step))
  {
    match step
    case Start(_, _, _, _, _, _) => StartFollows(s, step);
    case Finish(_, _, _, _, _) => FinishFollows(s, step);
    case Accept(g) => AcceptFollows(s, g);
    case SetUser(user, row) => UserFollows(s, user, row);
    case CloseConversation(key) => CloseFollows(s, key);
    case _ => EndFollows(s, step);
  }

  /** No step of any execution, in any order, breaks the invariant or takes an answer back. */
  lemma StepKeepsInv(s: System, step: Step)
    requires Inv(s)
    ensures Inv(Do(s, step)) && Extends(s.db, Do(s, step).db) && s.returned <= Do(s, step).returned
  {
    StepFollows(s, step);
    FollowsMeans(s, Do(s, step));
  }

  // ---------------------------------------------------------------------------
  // Main results, over whole runs
  // ---------------------------------------------------------------------------

  function Empty(a: Alphabet): System {
    System(a, Db(map[], map[], map[], map[], [], {}), map[], [])
  }

  lemma {:induction false} RunKeepsInv(s: System, steps: seq<Step>)
    requires Inv(s)
    ensures Inv(Exec(s, steps)) && Extends(s.db, Exec(s, steps).db) && s.returned <= Exec(s, steps).returned
    decreases |steps|
  {
    if steps != [] {
      var t := Do(s, steps[0]);
      StepKeepsInv(s, steps[0]);
      RunKeepsInv(t, steps[1..]);
      ExtendsTransitive(s.db, t.db, Exec(t, steps[1..]).db);
    }
  }

  /** `t` is a later state of `s`. */
  ghost predicate Leads(s: System, t: System) {
    exists steps :: Exec(s, steps) == t
  }

  ghost predicate Reachable(s: System) {
    Leads(Empty(s.alphabet), s)
  }

  lemma ReachableInv(s: System)
    requires Reachable(s)
    ensures Inv(s)
  {
    var steps :| Exec(Empty(s.alphabet), steps) == s;
    RunKeepsInv(Empty(s.alphabet), steps);
  }

  lemma LeadsExtends(s: System, t: System)
    requires Reachable(s) && Leads(s, t)
    ensures Extends(s.db, t.db) && s.returned <= t.returned && Reachable(t) && t.alphabet == s.alphabet
  {
    ReachableInv(s);
    var steps :| Exec(s, steps) == t;
    RunKeepsInv(s, steps);
    var first :| Exec(Empty(s.alphabet), first) == s;
    ExecAppends(Empty(s.alphabet), first, steps);
    AlphabetStays(s, steps);
  }

  lemma {:induction false} AlphabetStays(s: System, steps: seq<Step>)
    ensures Exec(s, steps).alphabet == s.alphabet
    decreases |steps|
  {
    if steps != [] { AlphabetStays(Do(s, steps[0]), steps[1..]); }
  }

  lemma {:induction false} ExecAppends(s: System, first: seq<Step>, second: seq<Step>)
    ensures Exec(s, first + second) == Exec(Exec(s, first), second)
    decreases |first|
  {
    if first == [] {
      assert first + second == second;
    } else {
      assert (first + second)[1..] == first[1..] + second;
      ExecAppends(Do(s, first[0]), first[1..], second);
    }
  }

  lemma StepLeads(s: System, step: Step)
    ensures Leads(s, Do(s, step)) && Leads(s, s)
  {
    assert Exec(s, []) == s;
    assert Exec(Do(s, step), []) == Do(s, step);
    assert [step][1..] == [];
    assert Exec(s, [step]) == Do(s, step);
  }

  lemma LeadsOn(s: System, t: System, u: System)
    requires Leads(s, t) && Leads(t, u)
    ensures Leads(s, u)
  {
    var first :| Exec(s, first) == t;
    var second :| Exec(t, second) == u;
    ExecAppends(s, first, second);
  }

  /**
   Whatever executions, retries, take-overs and crashes there were: two successful returns for one
   request ID are the same answer with the same citations in the same order, and come from equal input.
   */
  lemma ReturnsOfOneRequestAgree(a: Alphabet, steps: seq<Step>, i: nat, j: nat)
    requires var returned := Exec(Empty(a), steps).returned;
             i < |returned| && j < |returned| && KeyOf(returned[i].q) == KeyOf(returned[j].q)
    ensures var returned := Exec(Empty(a), steps).returned;
            returned[i].answer == returned[j].answer && returned[i].q == returned[j].q
  {
    RunKeepsInv(Empty(a), steps);
    var s := Exec(Empty(a), steps);
    assert ReturnOk(s.db, s.returned[i]) && ReturnOk(s.db, s.returned[j]);
  }

  /**
   In every reachable state an ASSISTANT message is there exactly when its run is finished, and the
   run's result names it; and whatever happens next, a finished run stays as it is.
   */
  lemma FinishedRunsAreFinal(a: Alphabet, before: seq<Step>, after: seq<Step>, key: RunKey)
    ensures var s := Exec(Empty(a), before);
            var t := Exec(s, after);
            var m := MessageKey(key, Assistant);
            && (m in s.db.messages <==> key in s.db.runs && Done(s.db.runs[key].status))
            && (key in s.db.runs ==>
                  s.db.runs[key].result == if m in s.db.messages then Some(s.db.messages[m].id) else None)
            && (m in s.db.messages ==>
                  && s.db.messages[m].user == s.db.runs[key].fingerprint.user
                  && (s.db.messages[m].refused <==> s.db.runs[key].status == CompletedWithRefusal)
                  && m in t.db.messages && t.db.messages[m] == s.db.messages[m] && key in t.db.runs
                  && t.db.runs[key].status == s.db.runs[key].status && t.db.runs[key].result == s.db.runs[key].result
                  && AnswerAt(t.db, m) == AnswerAt(s.db, m))
  {
    RunKeepsInv(Empty(a), before);
    var s := Exec(Empty(a), before);
    RunKeepsInv(s, after);
    var m := MessageKey(key, Assistant);
    if key in s.db.runs { assert RunOk(s.db, key); }
    if m in s.db.messages { AnswerIsStable(s.db, Exec(s, after).db, m); }
  }

  // ---------------------------------------------------------------------------
  // Whose conversations messages are in
  // ---------------------------------------------------------------------------

  /** A conversation of that tenant and that user has the ID. */
  ghost predicate InTalk(db: Db, tenant: Id, user: Id, id: Id) {
    exists k :: k in db.conversations && k.tenant == tenant && k.user == user && db.conversations[k].id == id
  }

  /** The IDs of conversations are distinct, and have been handed out. */
  ghost predicate TalksOk(db: Db) {
    && (forall k :: k in db.conversations ==> db.conversations[k].id in db.issued)
    && (forall k, l :: k in db.conversations && l in db.conversations && k != l ==>
          db.conversations[k].id != db.conversations[l].id)
  }

  ghost predicate MessagePlaced(db: Db, m: MessageKey)
    requires m in db.messages
  {
    InTalk(db, m.run.tenant, db.messages[m].user, db.messages[m].conversation)
  }

  ghost predicate ExecutorPlaced(db: Db, e: Executor) {
    e.Working? ==> InTalk(db, e.q.tenant, e.q.user, e.conversation)
  }

  datatype Room = TalksRoom | MessagesRoom | ExecutorsRoom

  ghost predicate RoomOk(s: System, room: Room) {
    match room
    case TalksRoom => TalksOk(s.db)
    case MessagesRoom => forall m :: m in s.db.messages ==> MessagePlaced(s.db, m)
    case ExecutorsRoom => forall pid :: pid in s.executors ==> ExecutorPlaced(s.db, s.executors[pid])
  }

  /** Every message, and every execution that will store one, is in a conversation of its own tenant and user. */
  ghost predicate Placed(s: System) {
    forall room :: RoomOk(s, room)
  }

  lemma PlacedMeans(s: System)
    requires Placed(s)
    ensures TalksOk(s.db) && forall m :: m in s.db.messages ==> MessagePlaced(s.db, m)
    ensures forall pid :: pid in s.executors ==> ExecutorPlaced(s.db, s.executors[pid])
  {
    assert RoomOk(s, TalksRoom) && RoomOk(s, MessagesRoom) && RoomOk(s, ExecutorsRoom);
  }

  /** Users keep their external ID, and conversations their ID. */
  ghost predicate Settles(db: Db, t: Db) {
    && (forall u :: u in db.users ==> u in t.users && t.users[u].external == db.users[u].external)
    && (forall k :: k in db.conversations ==> k in t.conversations && t.conversations[k].id == db.conversations[k].id)
  }

  lemma InTalkStays(db: Db, t: Db, tenant: Id, user: Id, id: Id)
    requires Settles(db, t) && InTalk(db, tenant, user, id)
    ensures InTalk(t, tenant, user, id)
  {
    var k :| k in db.conversations && k.tenant == tenant && k.user == user && db.conversations[k].id == id;
    assert k in t.conversations && t.conversations[k].id == id;
  }

  /** Old messages and executions stay where they are, so only the new ones matter. */
  lemma StillPlaced(s: System, t: System)
    requires Placed(s) && Settles(s.db, t.db) && TalksOk(t.db)
    requires forall m :: m in t.db.messages ==>
               (m in s.db.messages && t.db.messages[m] == s.db.messages[m]) || MessagePlaced(t.db, m)
    requires forall pid :: pid in t.executors ==>
               (pid in s.executors && t.executors[pid] == s.executors[pid]) || ExecutorPlaced(t.db, t.executors[pid])
    ensures Placed(t)
  {
    PlacedMeans(s);
    forall m | m in t.db.messages ensures MessagePlaced(t.db, m) {
      if m in s.db.messages && t.db.messages[m] == s.db.messages[m] {
        assert MessagePlaced(s.db, m);
        InTalkStays(s.db, t.db, m.run.tenant, s.db.messages[m].user, s.db.messages[m].conversation);
      }
    }
    forall pid | pid in t.executors ensures ExecutorPlaced(t.db, t.executors[pid]) {
      if pid in s.executors && t.executors[pid] == s.executors[pid] && t.executors[pid].Working? {
        assert ExecutorPlaced(s.db, s.executors[pid]);
        InTalkStays(s.db, t.db, s.executors[pid].q.tenant, s.executors[pid].q.user, s.executors[pid].conversation);
      }
    }
  }

  lemma SettlesOn(db: Db, t: Db, u: Db)
    requires Settles(db, t) && Settles(t, u)
    ensures Settles(db, u)
  {
  }

  lemma ResolvedSettles(db: Db, q: Request, minted: Id)
    requires TalksOk(db) && Mintable(db, minted) && Resolved(db, q, minted).Success?
    ensures var (t, id) := Resolved(db, q, minted).value;
            Settles(db, t) && TalksOk(t) && InTalk(t, q.tenant, q.user, id) && t.messages == db.messages
  {
    if q.conversation.None? {
      var (t, id) := Resolved(db, q, minted).value;
      var key := ConversationKey(q.tenant, q.user, q.channel);
      assert key in t.conversations && t.conversations[key].id == id;
    }
  }

  lemma RunClaimKeepsTalks(db: Db, q: Request, conversation: Id, clock: int, now: int)
    requires RunClaim(db, q, conversation, clock, now).Success?
    ensures var (t, claim) := RunClaim(db, q, conversation, clock, now).value;
            && t.conversations == db.conversations && t.messages == db.messages && t.users == db.users
            && db.issued <= t.issued && claim.conversation == conversation
  {
  }

  /** What a claim does to conversations and messages. */
  lemma ClaimSettles(db: Db, q: Request, clock: int, now: int, minted: Id, message: Id)
    requires TalksOk(db) && Mintable(db, minted) && ClaimQuery(db, q, clock, now, minted, message).Success?
    ensures var (t, claim) := ClaimQuery(db, q, clock, now, minted, message).value;
            && Settles(db, t) && TalksOk(t) && InTalk(t, q.tenant, q.user, claim.conversation)
            && (forall m :: m in t.messages ==>
                  || (m in db.messages && t.messages[m] == db.messages[m])
                  || (m.run == KeyOf(q) && t.messages[m].user == q.user
                      && t.messages[m].conversation == claim.conversation))
  {
    ResolvedSettles(db, q, minted);
    var (db1, id) := Resolved(db, q, minted).value;
    RunClaimKeepsTalks(db1, q, id, clock, now);
    var (db2, claim) := RunClaim(db1, q, id, clock, now).value;
    var (t, _) := ClaimQuery(db, q, clock, now, minted, message).value;
    assert Settles(db1, t);
    InTalkStays(db1, t, q.tenant, q.user, id);
  }

  lemma StartKeepsPlaced(s: System, step: Step)
    requires Placed(s) && step.Start?
    ensures Placed(Do(s, step)) && Settles(s.db, Do(s, step).db)
  {
    PlacedMeans(s);
    var t := Do(s, step);
    if t != s {
      ClaimSettles(s.db, step.q, step.clock, step.now, step.minted, step.message);
      StillPlaced(s, t);
    }
  }

  lemma PersistKeepsTalks(db: Db, key: RunKey, user: Id, conversation: Id, g: GeneratedAnswer,
                          candidates: seq<Candidate>, message: Id, now: int)
    requires PersistAnswer(db, key, user, conversation, g, candidates, message, now).Success?
    ensures var (t, _) := PersistAnswer(db, key, user, conversation, g, candidates, message, now).value;
            && t.users == db.users && t.conversations == db.conversations && db.issued <= t.issued
            && (forall m :: m in t.messages ==>
                  || (m in db.messages && t.messages[m] == db.messages[m])
                  || (m.run == key && t.messages[m].user == user && t.messages[m].conversation == conversation))
  {
  }

  lemma FinishKeepsPlaced(s: System, step: Step)
    requires Placed(s) && step.Finish?
    ensures Placed(Do(s, step)) && Settles(s.db, Do(s, step).db)
  {
    PlacedMeans(s);
    var t := Do(s, step);
    if t.returned != s.returned {
      var g := Grounded(s.alphabet, step.raw, step.candidates).value;
      var Working(q, c) := s.executors[step.pid];
      assert ExecutorPlaced(s.db, s.executors[step.pid]);
      PersistKeepsTalks(s.db, KeyOf(q), q.user, c, g, step.candidates, step.message, step.now);
      InTalkStays(s.db, t.db, q.tenant, q.user, c);
    }
    StillPlaced(s, t);
  }

  lemma AcceptKeepsPlaced(s: System, g: Acceptance)
    requires Placed(s)
    ensures Placed(Do(s, Accept(g))) && Settles(s.db, Do(s, Accept(g)).db)
  {
    PlacedMeans(s);
    var t := Do(s, Accept(g));
    if Acceptable(s.db, g) {
      var talk := ConversationKey(g.tenant, g.user, WECOM);
      assert talk in t.db.conversations && t.db.conversations[talk].id == Talk(s.db, g);
      StillPlaced(s, t);
    }
  }

  lemma SideStepKeepsPlaced(s: System, step: Step)
    requires Placed(s) && (step.SetUser? || step.CloseConversation?)
    ensures Placed(Do(s, step)) && Settles(s.db, Do(s, step).db)
  {
    PlacedMeans(s);
    StillPlaced(s, Do(s, step));
  }

  lemma EndKeepsPlaced(s: System, step: Step)
    requires Placed(s) && (step.Fail? || step.Break? || step.Crash?)
    ensures Placed(Do(s, step)) && Settles(s.db, Do(s, step).db)
  {
    PlacedMeans(s);
    StillPlaced(s, Do(s, step));
  }

  lemma StepKeepsPlaced(s: System, step: Step)
    requires Placed(s)
    ensures Placed(Do(s, step)) && Settles(s.db, Do(s, step).db)
  {
    match step
    case Start(_, _, _, _, _, _) => StartKeepsPlaced(s, step);
    case Finish(_, _, _, _, _) => FinishKeepsPlaced(s, step);
    case Accept(g) => AcceptKeepsPlaced(s, g);
    case SetUser(_, _) => SideStepKeepsPlaced(s, step);
    case CloseConversation(_) => SideStepKeepsPlaced(s, step);
    case _ => EndKeepsPlaced(s, step);
  }

  lemma {:induction false} RunKeepsPlaced(s: System, steps: seq<Step>)
    requires Placed(s)
    ensures Placed(Exec(s, steps)) && Settles(s.db, Exec(s, steps).db)
    decreases |steps|
  {
    if steps != [] {
      StepKeepsPlaced(s, steps[0]);
      RunKeepsPlaced(Do(s, steps[0]), steps[1..]);
      SettlesOn(s.db, Do(s, steps[0]).db, Exec(s, steps).db);
    }
  }

  lemma LeadsSettles(s: System, t: System)
    requires Reachable(s) && Leads(s, t)
    ensures Placed(s) && Placed(t) && Settles(s.db, t.db)
  {
    var first :| Exec(Empty(s.alphabet), first) == s;
    RunKeepsPlaced(Empty(s.alphabet), first);
    var steps :| Exec(s, steps) == t;
    RunKeepsPlaced(s, steps);
  }

  /**
   Whoever asks for whichever conversations: in every reachable state each message, question or answer,
   is in a conversation of its own tenant and user, and no conversation belongs to two users.
   */
  lemma MessagesStayWithTheirUser(a: Alphabet, steps: seq<Step>, m: MessageKey)
    returns (k: ConversationKey)
    requires m in Exec(Empty(a), steps).db.messages
    ensures var db := Exec(Empty(a), steps).db;
            && k in db.conversations && db.conversations[k].id == db.messages[m].conversation
            && k.tenant == m.run.tenant && k.user == db.messages[m].user
            && forall l :: l in db.conversations && db.conversations[l].id == db.messages[m].conversation ==> l == k
  {
    RunKeepsPlaced(Empty(a), steps);
    var s := Exec(Empty(a), steps);
    PlacedMeans(s);
    assert MessagePlaced(s.db, m);
    k :| k in s.db.conversations && k.tenant == m.run.tenant && k.user == s.db.messages[m].user
         && s.db.conversations[k].id == s.db.messages[m].conversation;
  }

  // ---------------------------------------------------------------------------
  // What a claim admits, and what it leaves behind
  // ---------------------------------------------------------------------------

  /** The user has an active conversation with that ID. */
  ghost predicate MayTalk(db: Db, tenant: Id, user: Id, id: Id) {
    exists k :: k in db.conversations && k.tenant == tenant && k.user == user && db.conversations[k].id == id
                && db.conversations[k].active
  }

  ghost predicate MayAsk(db: Db, q: Request) {
    && UserKey(q.tenant, q.user) in db.users && db.users[UserKey(q.tenant, q.user)].active
    && (q.conversation.Some? ==> MayTalk(db, q.tenant, q.user, q.conversation.value))
  }

  /** The run was claimed for the same user, conversation, question, knowledge bases and channel. */
  predicate SameInput(q: Request, f: Fingerprint) {
    && f.tenant == q.tenant && f.user == q.user && f.conversation == q.conversation && f.question == q.question
    && f.knowledgeBases == q.knowledgeBases && f.channel == q.channel
  }

  predicate IsStale(run: Run, clock: int) {
    run.status == RetryableFailed || (run.status == InProgress && clock - run.updatedAt >= 30)
  }

  /** A claim is a replay exactly if the request is answered, and then it has the stored answer. */
  ghost predicate RepliesWithStored(db: Db, q: Request, claim: Claim) {
    && (claim.Replay? <==> KeyOf(q) in db.runs && Done(db.runs[KeyOf(q)].status))
    && (claim.Replay? ==>
          MessageKey(KeyOf(q), Assistant) in db.messages
            && claim.answer == AnswerAt(db, MessageKey(KeyOf(q), Assistant)))
  }

  lemma MayTalkIsAvailable(db: Db, q: Request, id: Id)
    ensures Available(db.conversations, q, id) <==> MayTalk(db, q.tenant, q.user, id)
  {
    if k :| k in db.conversations && k.tenant == q.tenant && k.user == q.user && db.conversations[k].id == id
            && db.conversations[k].active {
      assert db.conversations[k] == Conversation(id, true);
    }
  }

  /** The request is new, or came with the same input and is answered or open again. */
  predicate CanClaim(db: Db, q: Request, clock: int) {
    KeyOf(q) in db.runs ==>
      && SameInput(q, db.runs[KeyOf(q)].fingerprint)
      && (Done(db.runs[KeyOf(q)].status) || IsStale(db.runs[KeyOf(q)], clock))
  }

  /** Another execution is at work on the request, as far as one can tell. */
  predicate IsBusy(db: Db, q: Request, clock: int) {
    && KeyOf(q) in db.runs && SameInput(q, db.runs[KeyOf(q)].fingerprint)
    && db.runs[KeyOf(q)].status == InProgress && clock - db.runs[KeyOf(q)].updatedAt < 30
  }

  lemma ResolvedKeepsDb(db: Db, q: Request, minted: Id)
    requires DbOk(db) && Resolved(db, q, minted).Success?
    ensures var t := Resolved(db, q, minted).value.0;
            DbOk(t) && t.runs == db.runs && t.messages == db.messages && t.citations == db.citations
  {
    SideTablesKeepDb(db, Resolved(db, q, minted).value.0);
    MovesMeans(db, Resolved(db, q, minted).value.0);
  }

  /**
   A claim succeeds exactly for an active user who asks in no conversation or in an active one of his
   own, if the request is new, or came with the same input and is answered, has failed for now, or
   has shown no sign of life for 30 seconds. The errors say which of these is the first to fail.
   */
  lemma ClaimedExactly(db: Db, q: Request, clock: int, now: int, minted: Id, message: Id)
    requires DbOk(db)
    ensures var r, user := ClaimQuery(db, q, clock, now, minted, message), UserKey(q.tenant, q.user);
            && (r.Success? <==> MayAsk(db, q) && CanClaim(db, q, clock))
            && (r.Success? ==> RepliesWithStored(db, q, r.value.1))
            && (r == Failure(NotFound) <==> user !in db.users)
            && (r == Failure(PermissionDenied) <==> user in db.users && !MayAsk(db, q))
            && (r == Failure(RequestInProgress) <==> MayAsk(db, q) && IsBusy(db, q, clock))
            && (r.Success? || r.error in {NotFound, PermissionDenied, RequestInProgress, RequestConflict})
  {
    if q.conversation.Some? { MayTalkIsAvailable(db, q, q.conversation.value); }
    if MayAsk(db, q) { AdmittedClaimedExactly(db, q, clock, now, minted, message); }
  }

  lemma AdmittedClaimedExactly(db: Db, q: Request, clock: int, now: int, minted: Id, message: Id)
    requires DbOk(db) && MayAsk(db, q)
    ensures var r := ClaimQuery(db, q, clock, now, minted, message);
            && (r.Success? <==> CanClaim(db, q, clock)) && (r.Success? ==> RepliesWithStored(db, q, r.value.1))
            && (r == Failure(RequestInProgress) <==> IsBusy(db, q, clock))
            && (r.Success? || r.error in {RequestInProgress, RequestConflict})
  {
    if q.conversation.Some? { MayTalkIsAvailable(db, q, q.conversation.value); }
    var (db1, conversation) := Resolved(db, q, minted).value;
    ResolvedKeepsDb(db, q, minted);
    RunClaimedExactly(db1, q, conversation, clock, now);
    SameReplies(db, db1, q);
  }

  lemma SameReplies(db: Db, t: Db, q: Request)
    requires t.runs == db.runs && t.messages == db.messages && t.citations == db.citations
    ensures forall claim :: RepliesWithStored(t, q, claim) <==> RepliesWithStored(db, q, claim)
  {
    var m := MessageKey(KeyOf(q), Assistant);
    assert m in db.messages ==> AnswerAt(t, m) == AnswerAt(db, m);
  }

  lemma RunClaimedExactly(db: Db, q: Request, conversation: Id, clock: int, now: int)
    requires DbOk(db)
    ensures var r := RunClaim(db, q, conversation, clock, now);
            && (r.Success? <==> CanClaim(db, q, clock)) && (r.Success? ==> RepliesWithStored(db, q, r.value.1))
            && (r == Failure(RequestInProgress) <==> IsBusy(db, q, clock))
            && (r.Success? || r.error in {RequestInProgress, RequestConflict})
  {
    if KeyOf(q) in db.runs && Done(db.runs[KeyOf(q)].status) { LoadedAnswer(db, KeyOf(q)); }
  }

  /** The conversation that was asked for, or the user's own of that channel, open and with its old ID. */
  ghost predicate TalkLeft(db: Db, t: Db, q: Request, c: Id) {
    if q.conversation.Some? then c == q.conversation.value && t.conversations == db.conversations
    else
      var talk := ConversationKey(q.tenant, q.user, q.channel);
      && talk in t.conversations && t.conversations[talk] == Conversation(c, true)
      && t.conversations == db.conversations[talk := t.conversations[talk]]
      && (talk in db.conversations ==> c == db.conversations[talk].id)
  }

  /** The run is in progress, one attempt further. */
  ghost predicate RunLeft(db: Db, t: Db, q: Request, c: Id, now: int) {
    var key := KeyOf(q);
    && key in t.runs && t.runs == db.runs[key := t.runs[key]]
    && t.runs[key].status == InProgress && t.runs[key].updatedAt == now && t.runs[key].conversation == c
    && t.runs[key].attempt == (if key in db.runs then db.runs[key].attempt + 1 else 1)
    && SameInput(q, t.runs[key].fingerprint)
  }

  /** The question is stored, unless the request has a message already. */
  ghost predicate QuestionLeft(db: Db, t: Db, q: Request, c: Id, message: Id, now: int) {
    var m := MessageKey(KeyOf(q), User);
    && m in t.messages && t.messages == db.messages[m := t.messages[m]]
    && (if m in db.messages then t.messages[m] == db.messages[m]
        else t.messages[m] == Message(message, c, q.user, q.question, false, None, now))
  }

  lemma RunClaimLeaves(db: Db, q: Request, conversation: Id, clock: int, now: int)
    requires var r := RunClaim(db, q, conversation, clock, now); r.Success? && r.value.1.Fresh?
    ensures var (t, claim) := RunClaim(db, q, conversation, clock, now).value;
            && claim.conversation == conversation && RunLeft(db, t, q, conversation, now)
            && t.conversations == db.conversations && t.messages == db.messages && t.citations == db.citations
  {
  }

  lemma QuestionStays(db: Db, q: Request, c: Id, message: Id, now: int)
    ensures var t := WithQuestion(db, q, c, message, now);
            && QuestionLeft(db, t, q, c, message, now)
            && t.conversations == db.conversations && t.runs == db.runs && t.citations == db.citations
  {
  }

  /** What a claim that is not a replay leaves in the tables. */
  lemma FreshClaimLeaves(db: Db, q: Request, clock: int, now: int, minted: Id, message: Id)
    requires var r := ClaimQuery(db, q, clock, now, minted, message); r.Success? && r.value.1.Fresh?
    ensures var (t, claim) := ClaimQuery(db, q, clock, now, minted, message).value;
            && TalkLeft(db, t, q, claim.conversation) && RunLeft(db, t, q, claim.conversation, now)
            && QuestionLeft(db, t, q, claim.conversation, message, now) && t.citations == db.citations
  {
    var (db1, conversation) := Resolved(db, q, minted).value;
    RunClaimLeaves(db1, q, conversation, clock, now);
    var (db2, claim) := RunClaim(db1, q, conversation, clock, now).value;
    QuestionStays(db2, q, conversation, message, now);
  }

  // ---------------------------------------------------------------------------
  // Citations of a persisted answer
  // ---------------------------------------------------------------------------

  /** The answer has the text, and its k-th citation is the candidate that the k-th index names. */
  ghost predicate CitesIndexes(answer: Answer, g: GeneratedAnswer, message: Id, candidates: seq<Candidate>) {
    && answer.text == g.answer && |answer.citations| == |g.indexes| && InRange(g.indexes, |candidates|)
    && forall k :: 0 <= k < |g.indexes| ==>
         answer.citations[k] == CitationOf(RowOf(message, k + 1, candidates[g.indexes[k] - 1]))
  }

  lemma PersistedCitations(db: Db, key: RunKey, user: Id, conversation: Id, g: GeneratedAnswer,
                           candidates: seq<Candidate>, message: Id, now: int)
    requires MessageKey(key, Assistant) !in db.messages && InRange(g.indexes, |candidates|)
    ensures var r := PersistAnswer(db, key, user, conversation, g, candidates, message, now);
            r.Success? && CitesIndexes(r.value.1, g, message, candidates)
  {
    assert Resolvable(g.indexes, candidates);
  }

  /** What storing an answer leaves in the tables, and returns. */
  lemma PersistLeaves(db: Db, key: RunKey, user: Id, conversation: Id, g: GeneratedAnswer,
                      candidates: seq<Candidate>, message: Id, now: int)
    requires PersistAnswer(db, key, user, conversation, g, candidates, message, now).Success? && key in db.runs
    ensures var (t, answer) := PersistAnswer(db, key, user, conversation, g, candidates, message, now).value;
            var m := MessageKey(key, Assistant);
            var status := if g.refused then CompletedWithRefusal else RunStatus.Completed;
            && answer.message == message && answer.text == g.answer && answer.refused == g.refused
            && answer.reason == g.reason && answer.conversation == conversation && answer.createdAt == now
            && m in t.messages && t.messages == db.messages[m := t.messages[m]]
            && t.messages[m].user == user && t.messages[m].content == g.answer
            && t.runs == db.runs[key := db.runs[key].(status := status, result := Some(message), updatedAt := now)]
            && t.users == db.users && t.conversations == db.conversations
  {
  }

  /**
   Wherever the one text has a marker with the value v, the other has a marker k whose citation,
   numbered k, cites candidate v; the rest is the same.
   */
  ghost predicate NamesCandidates(before: seq<Piece>, after: seq<Piece>, citations: seq<Citation>, message: Id,
                                  candidates: seq<Candidate>)
  {
    && |after| == |before|
    && forall i :: 0 <= i < |before| ==>
         if before[i].Plain? then after[i] == before[i]
         else
           && after[i].Marker? && 1 <= before[i].value <= |candidates| && 1 <= after[i].value <= |citations|
           && citations[after[i].value - 1]
             == CitationOf(RowOf(message, after[i].value, candidates[before[i].value - 1]))
  }

  lemma MarkersFollowIndexes(before: seq<Piece>, after: seq<Piece>, g: GeneratedAnswer, answer: Answer, message: Id,
                             candidates: seq<Candidate>)
    requires SameCitations(before, after, g.indexes) && CitesIndexes(answer, g, message, candidates)
    ensures NamesCandidates(before, after, answer.citations, message, candidates)
  {
    var indexes := g.indexes;
    forall i | 0 <= i < |before| && before[i].Marker?
      ensures after[i].Marker? && 1 <= before[i].value <= |candidates| && 1 <= after[i].value <= |answer.citations|
      ensures answer.citations[after[i].value - 1]
           == CitationOf(RowOf(message, after[i].value, candidates[before[i].value - 1]))
    {
      assert indexes[after[i].value - 1] == before[i].value;
    }
  }

  lemma AcceptedIndexes(a: Alphabet, raw: GeneratedAnswer, g: GeneratedAnswer, count: nat)
    requires Lawful(a) && !raw.refused && ValidateAndRenumber(a, raw, count) == Success(g)
    ensures forall j :: 0 <= j < |Cited(a, raw)| ==> 0 <= Cited(a, raw)[j]
    ensures InRange(g.indexes, count) && SameCitations(Scan(a, Marked(a, raw)), Scan(a, g.answer), g.indexes)
  {
    AcceptedExactly(a, raw, count);
    RewrittenAnswerRescans(a, raw, count);
  }

  /**
   An accepted answer is never refused for want of a candidate, only if there is an answer already;
   and what is persisted cites the candidates that the indexes name.
   */
  lemma AcceptedIsPersisted(a: Alphabet, db: Db, key: RunKey, user: Id, conversation: Id, raw: GeneratedAnswer,
                            g: GeneratedAnswer, candidates: seq<Candidate>, message: Id, now: int)
    requires Lawful(a) && Grounded(a, raw, candidates) == Success(g)
    ensures var r := PersistAnswer(db, key, user, conversation, g, candidates, message, now);
            && (r.Success? <==> MessageKey(key, Assistant) !in db.messages)
            && (r.Success? ==> CitesIndexes(r.value.1, g, message, candidates))
  {
    if candidates != [] && !raw.refused { AcceptedIndexes(a, raw, g, |candidates|); }
    if MessageKey(key, Assistant) !in db.messages {
      PersistedCitations(db, key, user, conversation, g, candidates, message, now);
    }
  }

  /**
   From the model's text to the stored rows: every marker of the text that is renumbered names, in
   the persisted text and through its citation row, the candidate that it named before.
   */
  lemma MarkersNameTheirCandidates(a: Alphabet, raw: GeneratedAnswer, g: GeneratedAnswer, candidates: seq<Candidate>,
                                   message: Id, answer: Answer)
    requires Lawful(a) && candidates != [] && !raw.refused && Grounded(a, raw, candidates) == Success(g)
    requires CitesIndexes(answer, g, message, candidates)
    ensures forall j :: 0 <= j < |Cited(a, raw)| ==> 0 <= Cited(a, raw)[j]
    ensures NamesCandidates(Scan(a, Marked(a, raw)), Scan(a, answer.text), answer.citations, message, candidates)
  {
    AcceptedIndexes(a, raw, g, |candidates|);
    MarkersFollowIndexes(Scan(a, Marked(a, raw)), Scan(a, g.answer), g, answer, message, candidates);
  }
}
