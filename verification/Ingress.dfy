/**
 The programs on the way in: the transactions of the gateway's store, and `processOne` of the
 dispatcher. Each statement of a transaction is done on the tables, and what was done before a
 failure is rolled back. The transactions interleave as the steps of `Pipeline`; an undisturbed pass
 of the dispatcher is one run of these steps.
 */
module Ingress {
  import opened Wrappers
  import opened Identity
  import opened Pipeline
  import Q = QueryRuns
  import O = Outbound

  datatype Refusal = UserDisabled | Conflict | NotAUuid

  /** The sender is a user already, and disabled. */
  predicate IsDisabled(users: map<Q.UserKey, Q.UserRow>, g: Q.Acceptance) {
    Q.UserKey(g.tenant, g.user) in users && !users[Q.UserKey(g.tenant, g.user)].active
  }

  function QuestionKey(cb: Callback, row: Inbound): Q.MessageKey {
    Q.MessageKey(RunKey(cb.key.tenant, row.request), Q.User)
  }

  /** The tables of the gateway. */
  class InboundStore {
    var users: map<Q.UserKey, Q.UserRow>
    var conversations: map<Q.ConversationKey, Q.Conversation>
    var messages: map<Q.MessageKey, Q.Message>
    var inbound: map<InboundKey, Inbound>

    constructor ()
      ensures users == map[] && conversations == map[] && messages == map[] && inbound == map[]
    {
      users, conversations, messages, inbound := map[], map[], map[], map[];
    }

    /** What the tables are part of. */
    ghost predicate Shows(s: State)
      reads this
    {
      && s.agent.db.users == users && s.agent.db.conversations == conversations && s.agent.db.messages == messages
      && s.inbound == inbound
    }

    /**
     `findInbound`. In a state of the system a row that is found is owned by its request, and every
     handler of that callback ID works with it; if none is found, no handler of it has one either.
     */
    method FindInbound(key: InboundKey, ghost s: State) returns (row: Option<Inbound>)
      requires Shows(s)
      ensures row.Some? <==> key in inbound
      ensures row.Some? ==> row.value == inbound[key]
      ensures Inv(s) && row.Some? ==> InboundOk(s, key) && Owned(s, RunKey(key.tenant, row.value.request))
      ensures Inv(s) ==> forall g :: HasRowOf(s, g, key) ==> row.Some? && SameRow(s.gateways[g].row, row.value)
    {
      if Inv(s) {
        InvMeans(s);
        assert forall g :: HasRowOf(s, g, key) ==> GatewayOk(s, s.gateways[g]);
      }
      return if key in inbound then Some(inbound[key]) else None;
    }

    /** The row's message has the callback's text, from the active user with the sender's ID and in his conversation. */
    predicate Wrote(cb: Callback, row: Inbound)
      reads this
    {
      var tenant, m := cb.key.tenant, QuestionKey(cb, row);
      var user, talk := Q.UserKey(tenant, row.user), Q.ConversationKey(tenant, row.user, WECOM);
      && !row.queued && m in messages && messages[m].content == cb.content && messages[m].id == row.input
      && messages[m].user == row.user && messages[m].conversation == row.conversation
      && user in users && users[user] == Q.UserRow(cb.sender, true)
      && talk in conversations && conversations[talk] == Q.Conversation(row.conversation, true)
    }

    /** The message of the callback ID's row has that text. */
    predicate HasText(cb: Callback)
      requires cb.key in inbound
      reads this
    {
      var m := QuestionKey(cb, inbound[cb.key]);
      m in messages && messages[m].content == cb.content
    }

    /**
     The transaction of `AcceptInboundText`, which runs when no row was found: user, conversation,
     message and, last, the row whose unique key decides a race.
     */
    method InsertInbound(cb: Callback, g: Q.Acceptance, ghost s: State) returns (r: Result<Inbound, Refusal>)
      requires Shows(s) && IsOf(g, cb)
      requires Q.Upserts(s.agent.db, g) && Q.FreshIds(s.agent.db, g)
      modifies this
      ensures r.Success? <==> Commits(s, cb, g)
      ensures r.Success? <==> IsUuid(cb.key.tenant) && !IsDisabled(old(users), g) && cb.key !in old(inbound)
      ensures r.Success? ==> Wrote(cb, r.value)
      ensures r.Success? ==> Shows(AfterInsert(s, cb, g, 0)) && cb.key in inbound && inbound[cb.key] == r.value
      ensures r.Failure? ==> Shows(s)
      ensures r == Failure(NotAUuid) <==> !IsUuid(cb.key.tenant)
      ensures r == Failure(UserDisabled) <==> IsUuid(cb.key.tenant) && IsDisabled(old(users), g)
      ensures r == Failure(Conflict) ==> cb.key in inbound
    {
      if !IsUuid(g.tenant) {
        return Failure(NotAUuid);
      }
      var user := Q.UserKey(g.tenant, g.user);
      var usersBefore, conversationsBefore, messagesBefore := users, conversations, messages;
      if user !in users {
        users := users[user := Q.UserRow(g.sender, true)];
      }
      if !users[user].active {
        users := usersBefore;
        return Failure(UserDisabled);
      }
      var talk := Q.ConversationKey(g.tenant, g.user, WECOM);
      var conversation := if talk in conversations then conversations[talk].id else g.conversation;
      conversations := conversations[talk := Q.Conversation(conversation, true)];
      messages := messages[Q.MessageKey(RunKey(g.tenant, g.request), Q.User) :=
                             Q.Message(g.input, conversation, g.user, g.content, false, None, g.now)];
      if cb.key in inbound {
        users, conversations, messages := usersBefore, conversationsBefore, messagesBefore;
        return Failure(Conflict);
      }
      var row := Inbound(g.request, g.input, g.user, conversation, false);
      inbound := inbound[cb.key := row];
      return Success(row);
    }

    /** `MarkInboundQueued`: an error unless exactly one row is affected. */
    method MarkInboundQueued(tenant: Id, request: Id) returns (ok: bool)
      modifies this`inbound
      ensures inbound == Queued(old(inbound), tenant, request)
      ensures ok <==> |set k | k in old(inbound) && k.tenant == tenant && old(inbound)[k].request == request| == 1
    {
      var affected := set k | k in inbound && k.tenant == tenant && inbound[k].request == request;
      inbound := map k | k in inbound :: if k in affected then inbound[k].(queued := true) else inbound[k];
      return |affected| == 1;
    }
  }

  /** In every reachable state a handler's mark affects exactly one row, its own. */
  lemma MarksItsOwnRow(s: State, key: InboundKey)
    requires Inv(s) && key in s.inbound
    ensures (set k | k in s.inbound && k.tenant == key.tenant && s.inbound[k].request == s.inbound[key].request)
            == {key}
  {
    InvMeans(s);
    forall k | k in s.inbound && k.tenant == key.tenant && s.inbound[k].request == s.inbound[key].request
      ensures k == key
    {
      assert InboundOk(s, k) && InboundOk(s, key);
    }
  }

  // ---------------------------------------------------------------------------
  // The dispatcher
  // ---------------------------------------------------------------------------

  /** Which calls succeed, and which of the answers that the agent returned is the reply. */
  datatype Outcomes = Outcomes(load: bool, reply: Option<nat>, publish: bool, ack: bool)

  // ---------------------------------------------------------------------------
  // The steps of one process
  // ---------------------------------------------------------------------------

  datatype Process = Handler(g: nat) | Dispatcher(d: nat)

  predicate OwnStep(step: Step, p: Process) {
    match step
    case Receive(g, _) => p == Handler(g)
    case Find(g) => p == Handler(g)
    case Insert(g, _, _, _, _, _) => p == Handler(g)
    case PublishRequest(g, _, _) => p == Handler(g)
    case MarkQueued(g) => p == Handler(g)
    case Hangup(g) => p == Handler(g)
    case Take(d, _, _, _) => p == Dispatcher(d)
    case Answered(d, _) => p == Dispatcher(d)
    case Report(d) => p == Dispatcher(d)
    case AckRequest(d) => p == Dispatcher(d)
    case Stop(d) => p == Dispatcher(d)
    case _ => false
  }

  ghost predicate OwnSteps(steps: seq<Step>, p: Process) {
    forall k :: 0 <= k < |steps| ==> OwnStep(steps[k], p)
  }

  /** Only steps of the process lead from `s` to `t`. */
  ghost predicate Reached(s: State, t: State, p: Process) {
    exists steps :: OwnSteps(steps, p) && Exec(s, steps) == t
  }

  lemma ReachedBy(s: State, t: State, p: Process, steps: seq<Step>)
    requires OwnSteps(steps, p) && Exec(s, steps) == t
    ensures Reached(s, t, p)
  {
  }

  lemma ReachedLast(s: State, t: State, u: State, p: Process, step: Step)
    requires Reached(s, t, p) && OwnStep(step, p) && u == Do(t, step)
    ensures Reached(s, u, p)
  {
    var steps :| OwnSteps(steps, p) && Exec(s, steps) == t;
    ExecLast(s, steps, step);
    ReachedBy(s, u, p, steps + [step]);
  }

  lemma ReachedFirst(s: State, p: Process)
    ensures Reached(s, s, p)
  {
    ReachedBy(s, s, p, []);
  }

  lemma RequestsAreValid(s: State, i: nat)
    requires Inv(s) && i < |s.requested|
    ensures ValidRequested(s.requested[i])
  {
    InvMeans(s);
    assert RequestOk(s, s.requested[i]);
  }

  lemma {:induction false} ExecLast(s: State, steps: seq<Step>, step: Step)
    ensures Exec(s, steps + [step]) == Do(Exec(s, steps), step)
    decreases |steps|
  {
    if steps == [] {
      assert [step][1..] == [] && [] + [step] == [step];
      assert Exec(Do(s, step), []) == Do(s, step);
    } else {
      assert (steps + [step])[1..] == steps[1..] + [step];
      ExecLast(Do(s, steps[0]), steps[1..], step);
    }
  }

  /** A request of the first schema whose IDs are there. */
  predicate IsRequest(e: Requested) {
    && e.kind == "qa.requested" && e.schema == "1.0" && IsUuid(e.event) && IsUuid(e.tenant) && e.trace != ""
    && e.request != Text("") && e.input != Text("") && e.actor != Text("") && e.channel != ""
  }

  /** What the agent returned under that index is for the request that the dispatcher makes of the entry `i`. */
  ghost predicate Replies(s: State, i: nat, reply: Option<nat>)
    requires i < |s.requested|
  {
    && reply.Some? && reply.value < |s.agent.returned| && Owned(s, RunOf(s.requested[i]))
    && s.agent.returned[reply.value].q == Asked(s.agent.alphabet, QuestionOf(s, RunOf(s.requested[i])))
  }

  lemma RepliesAreIdentified(s: State, r: nat, question: Question)
    requires Inv(s) && r < |s.agent.returned| && s.agent.returned[r].q == Asked(s.agent.alphabet, question)
    ensures s.agent.returned[r].answer.conversation == question.conversation
    ensures s.agent.returned[r].answer.message != BLANK
  {
    Reachables(s);
    ReturnedIdentity(s.agent, r);
  }

  datatype Aspect = PublishedAspect | AcknowledgedAspect

  /** What a pass over the entry `i`, with the event `e`, adds to the completions and the acknowledgements. */
  ghost predicate AspectOk(aspect: Aspect, completed: seq<Completed>, completed': seq<Completed>, acked: set<nat>,
                           acked': set<nat>,
                           e: Requested, i: nat, published: Option<Completed>)
  {
    match aspect
    case PublishedAspect =>
      && completed' == completed + (if published.Some? then [published.value] else [])
      && (published.Some? ==> published.value == CompletionEvent(e, published.value.message))
    case AcknowledgedAspect => acked' == acked || acked' == acked + {i}
  }

  /** The pass publishes the completion of its own request or nothing, and acknowledges its own entry or nothing. */
  ghost predicate Passed(completed: seq<Completed>, completed': seq<Completed>, acked: set<nat>, acked': set<nat>,
                         e: Requested, i: nat, published: Option<Completed>)
  {
    forall aspect :: AspectOk(aspect, completed, completed', acked, acked', e, i, published)
  }

  /** What a dispatcher reads and writes. The rest of the state is kept for the proofs only. */
  class Dispatch {
    const agent: Q.System
    var requested: seq<Requested>
    var acked: set<nat>
    var completed: seq<Completed>
    ghost var st: State

    constructor (s: State)
      ensures st == s && Shows() && agent == s.agent && requested == s.requested && acked == s.acked
    {
      agent, requested, acked, completed, st := s.agent, s.requested, s.acked, s.out.entries, s;
    }

    /** The fields are those of the state. */
    ghost predicate Shows()
      reads this
    {
      st.agent == agent && st.requested == requested && st.acked == acked && st.out.entries == completed
    }

    /** Takes note that the last statement was a step of the system. */
    ghost method Follow(step: Step, d: nat, first: State)
      requires Reached(first, st, Dispatcher(d)) && OwnStep(step, Dispatcher(d))
      modifies this`st
      ensures st == Do(old(st), step) && Reached(first, st, Dispatcher(d))
      ensures Inv(old(st)) ==> Inv(st)
    {
      if Inv(st) { StepKeepsInv(st, step); }
      ReachedLast(first, st, Do(st, step), Dispatcher(d), step);
      st := Do(st, step);
    }

    /** `LoadQuestion` */
    method LoadQuestion(tenant: Id, input: Id) returns (rows: Option<(Q.MessageKey, Q.ConversationKey)>)
      ensures rows.Some? ==> Joins(agent.db, tenant, input, rows.value.0, rows.value.1)
      ensures rows.None? ==> forall m, talk :: !Joins(agent.db, tenant, input, m, talk)
    {
      if m, talk :| m in agent.db.messages && talk in agent.db.conversations
                    && Joins(agent.db, tenant, input, m, talk) {
        return Some((m, talk));
      }
      return None;
    }

    /** `AnswerQuestion`: what the agent returned for the question, if it returned anything. */
    method Ask(question: Question, reply: Option<nat>) returns (answer: Option<Q.Answer>)
      ensures answer.Some? <==>
                && reply.Some? && reply.value < |agent.returned|
                && agent.returned[reply.value].q == Asked(agent.alphabet, question)
      ensures answer.Some? ==> answer.value == agent.returned[reply.value].answer
    {
      if reply.Some? && reply.value < |agent.returned| {
        var r := agent.returned[reply.value];
        if r.q == Asked(agent.alphabet, question) {
          return Some(r.answer);
        }
      }
      return None;
    }

    /** Acknowledges the entry, or fails to. */
    method Ack(ghost d: nat, i: nat, ok: bool, ghost first: State)
      requires Shows() && Reached(first, st, Dispatcher(d)) && d in st.dispatchers
      requires st.dispatchers[d] == Closing(i) || st.dispatchers[d] == Rejecting(i)
      modifies this`acked, this`st
      ensures Shows() && Reached(first, st, Dispatcher(d)) && d !in st.dispatchers
      ensures acked == if ok then old(acked) + {i} else old(acked)
    {
      if ok {
        acked := acked + {i};
        Follow(AckRequest(d), d, first);
      } else {
        Follow(Stop(d), d, first);
      }
    }

    /** `ackPoison` */
    method Reject(ghost d: nat, i: nat, ok: bool, ghost first: State)
      requires Shows() && Reached(first, st, Dispatcher(d)) && i < |requested|
      requires d in st.dispatchers && st.dispatchers[d] == Rejecting(i)
      modifies this`acked, this`st
      ensures Shows() && Reached(first, st, Dispatcher(d)) && d !in st.dispatchers
      ensures Passed(completed, completed, old(acked), acked, requested[i], i, None)
      ensures acked == if ok then old(acked) + {i} else old(acked)
    {
      Ack(d, i, ok, first);
    }

    /**
     `processOne`, for an entry that the stream hands to dispatcher `d`. In a state that the system can
     reach, a pass whose calls succeed publishes the message of the answer that the agent gave to the
     entry's question, and then acknowledges the entry; if one fails, it does nothing from then on.
     */
    method ProcessOne(ghost d: nat, i: nat, o: Outcomes) returns (published: Option<Completed>)
      requires Shows() && i < |requested| && i !in acked && d !in st.dispatchers
      modifies this
      ensures Shows() && Reached(old(st), st, Dispatcher(d)) && d !in st.dispatchers && requested == old(requested)
      ensures Passed(old(completed), completed, old(acked), acked, requested[i], i, published)
      ensures !IsRequest(requested[i]) ==>
                published.None? && acked == if o.ack then old(acked) + {i} else old(acked)
      ensures Inv(old(st)) ==> (published.Some? <==> o.load && Replies(old(st), i, o.reply) && o.publish)
      ensures Inv(old(st)) && published.Some? ==>
                published.value.message == agent.returned[o.reply.value].answer.message
      ensures Inv(old(st)) ==> acked == if published.Some? && o.ack then old(acked) + {i} else old(acked)
    {
      ghost var first := st;
      ReachedFirst(st, Dispatcher(d));
      if Inv(st) { RequestsAreValid(st, i); }
      if !ValidRequested(requested[i]) {
        Follow(Take(d, i, Q.MessageKey(RunOf(requested[i]), Q.User), TalkOf(requested[i])), d, first);
        Reject(d, i, o.ack, first);
        return None;
      }
      published := LoadAndAnswer(d, i, o, first);
    }

    /** The rest of `processOne`, for an event that validates. */
    method LoadAndAnswer(ghost d: nat, i: nat, o: Outcomes, ghost first: State) returns (published: Option<Completed>)
      requires Shows() && Reached(first, st, Dispatcher(d)) && i < |requested| && i !in acked && d !in st.dispatchers
      requires ValidRequested(requested[i])
      modifies this
      ensures Shows() && Reached(first, st, Dispatcher(d)) && d !in st.dispatchers && requested == old(requested)
      ensures Passed(old(completed), completed, old(acked), acked, requested[i], i, published)
      ensures Inv(old(st)) ==> (published.Some? <==> o.load && Replies(old(st), i, o.reply) && o.publish)
      ensures Inv(old(st)) && published.Some? ==>
                published.value.message == agent.returned[o.reply.value].answer.message
      ensures Inv(old(st)) ==> acked == if published.Some? && o.ack then old(acked) + {i} else old(acked)
    {
      if Inv(st) { EntryCanBeTaken(st, d, i); }
      var rows := LoadQuestion(requested[i].tenant, requested[i].input);
      if !o.load || rows.None? {
        return None;
      }
      published := CheckAndAnswer(d, i, rows.value.0, rows.value.1, o, first);
    }

    /** The rest of `processOne`, for a question that is loaded. */
    method CheckAndAnswer(ghost d: nat, i: nat, m: Q.MessageKey, talk: Q.ConversationKey, o: Outcomes,
                          ghost first: State)
      returns (published: Option<Completed>)
      requires Shows() && Reached(first, st, Dispatcher(d)) && i < |requested| && i !in acked && d !in st.dispatchers
      requires ValidRequested(requested[i]) && Joins(agent.db, requested[i].tenant, requested[i].input, m, talk)
      modifies this
      ensures Shows() && Reached(first, st, Dispatcher(d)) && d !in st.dispatchers && requested == old(requested)
      ensures Passed(old(completed), completed, old(acked), acked, requested[i], i, published)
      ensures Inv(old(st)) ==> (published.Some? <==> Replies(old(st), i, o.reply) && o.publish)
      ensures Inv(old(st)) && published.Some? ==>
                published.value.message == agent.returned[o.reply.value].answer.message
      ensures Inv(old(st)) ==> acked == if published.Some? && o.ack then old(acked) + {i} else old(acked)
    {
      var question := Loaded(agent.db, m, talk);
      ghost var before := st;
      if Inv(before) { JoinsItsOwn(before, i, m, talk); TakenEntryIsAsked(before, d, i, m, talk); }
      Follow(Take(d, i, m, talk), d, first);
      if m.run.request != requested[i].request || question.user != requested[i].actor {
        Reject(d, i, o.ack, first);
        return None;
      }
      published := AnswerAndReport(d, i, question, o, first);
    }

    /** The answer that the agent gave to the question. */
    ghost predicate IsReply(question: Question, reply: Option<nat>)
      reads this
    {
      reply.Some? && reply.value < |agent.returned| && agent.returned[reply.value].q == Asked(agent.alphabet, question)
    }

    /** The agent's answer, if its identity is right. */
    method Await(ghost d: nat, ghost i: nat, question: Question, reply: Option<nat>, ghost first: State)
      returns (message: Option<Id>)
      requires Shows() && Reached(first, st, Dispatcher(d))
      requires d in st.dispatchers && st.dispatchers[d] == Asking(i, question)
      modifies this`st
      ensures Shows() && Reached(first, st, Dispatcher(d))
      ensures Inv(old(st)) ==> (message.Some? <==> IsReply(question, reply))
      ensures message.Some? ==> IsReply(question, reply) && message.value == agent.returned[reply.value].answer.message
      ensures match message
              case None => d !in st.dispatchers
              case Some(id) => d in st.dispatchers && st.dispatchers[d] == Reporting(i, question, id)
    {
      var answer := Ask(question, reply);
      if answer.None? {
        Follow(Stop(d), d, first);
        return None;
      }
      if Inv(st) { RepliesAreIdentified(st, reply.value, question); }
      Follow(Answered(d, reply.value), d, first);
      if answer.value.conversation != question.conversation || answer.value.message == BLANK {
        return None;
      }
      return Some(answer.value.message);
    }

    /** The rest of it, for a question that belongs to the event. */
    method AnswerAndReport(ghost d: nat, i: nat, question: Question, o: Outcomes, ghost first: State)
      returns (published: Option<Completed>)
      requires Shows() && Reached(first, st, Dispatcher(d))
      requires i < |requested| && d in st.dispatchers && st.dispatchers[d] == Asking(i, question)
      modifies this
      ensures Shows() && Reached(first, st, Dispatcher(d)) && d !in st.dispatchers && requested == old(requested)
      ensures Passed(old(completed), completed, old(acked), acked, requested[i], i, published)
      ensures Inv(old(st)) ==> (published.Some? <==> IsReply(question, o.reply) && o.publish)
      ensures published.Some? ==>
                IsReply(question, o.reply) && published.value.message == agent.returned[o.reply.value].answer.message
      ensures acked == if published.Some? && o.ack then old(acked) + {i} else old(acked)
    {
      var message := Await(d, i, question, o.reply, first);
      if message.None? {
        return None;
      }
      published := PublishAndAck(d, i, question, message.value, o, first);
    }

    /** The rest of it, for an answer with the right identity. */
    method PublishAndAck(ghost d: nat, i: nat, ghost question: Question, message: Id, o: Outcomes, ghost first: State)
      returns (published: Option<Completed>)
      requires Shows() && Reached(first, st, Dispatcher(d))
      requires i < |requested| && d in st.dispatchers && st.dispatchers[d] == Reporting(i, question, message)
      modifies this
      ensures Shows() && Reached(first, st, Dispatcher(d)) && d !in st.dispatchers && requested == old(requested)
      ensures completed == old(completed) + if published.Some? then [published.value] else []
      ensures published.Some? <==> o.publish
      ensures published.Some? ==> published.value == CompletionEvent(requested[i], message)
      ensures acked == if published.Some? && o.ack then old(acked) + {i} else old(acked)
    {
      if !o.publish {
        Follow(Stop(d), d, first);
        return None;
      }
      var e := CompletionEvent(requested[i], message);
      completed := completed + [e];
      Follow(Report(d), d, first);
      Ack(d, i, o.ack, first);
      return Some(e);
    }
  }

  // ---------------------------------------------------------------------------
  // The callback handler
  // ---------------------------------------------------------------------------

  /** The answer to the callback: success, or service unavailable, after which it is sent again. */
  datatype Reply = Success200 | Unavailable503

  /** Whether publishing and marking succeed. */
  datatype Attempts = Attempts(publish: bool, mark: bool)

  /** The event ID and the trace ID that are made for the event. */
  datatype Labels = Labels(event: Id, trace: string)

  class Gateway {
    const store: InboundStore
    var requested: seq<Requested>
    ghost var st: State

    constructor (store: InboundStore, s: State)
      requires store.Shows(s)
      ensures this.store == store && st == s && Shows()
    {
      this.store, requested, st := store, s.requested, s;
    }

    /** The tables and the stream are those of the state. */
    ghost predicate Shows()
      reads this, store
    {
      store.Shows(st) && st.requested == requested
    }

    /** Takes note that the last statement was a step of the system. */
    ghost method Follow(step: Step, g: nat, first: State)
      requires Reached(first, st, Handler(g)) && OwnStep(step, Handler(g))
      modifies this`st
      ensures st == Do(old(st), step) && Reached(first, st, Handler(g))
      ensures Inv(old(st)) ==> Inv(st)
    {
      if Inv(st) { StepKeepsInv(st, step); }
      ReachedLast(first, st, Do(st, step), Handler(g), step);
      st := Do(st, step);
    }

    /** The last statement: the row is marked, or marking it fails. */
    method Mark(ghost g: nat, cb: Callback, row: Inbound, ok: bool, ghost first: State) returns (reply: Reply)
      requires Shows() && Reached(first, st, Handler(g)) && g in st.gateways && st.gateways[g] == Queueing(cb, row)
      requires cb.key in store.inbound && store.inbound[cb.key] == row
      modifies this`st, store`inbound
      ensures Shows() && Reached(first, st, Handler(g)) && g !in st.gateways
      ensures cb.key in store.inbound && SameRow(row, store.inbound[cb.key])
      ensures Inv(old(st)) ==> (reply == Success200 <==> ok)
      ensures reply == Success200 ==> ok && store.inbound[cb.key].queued
    {
      if !ok {
        Follow(Hangup(g), g, first);
        return Unavailable503;
      }
      if Inv(st) { MarksItsOwnRow(st, cb.key); }
      var marked := store.MarkInboundQueued(cb.key.tenant, row.request);
      Follow(MarkQueued(g), g, first);
      return if marked then Success200 else Unavailable503;
    }

    /** After accepting: publish the event of the row, and then mark the row. */
    method PublishAndMark(ghost g: nat, cb: Callback, row: Inbound, labels: Labels, o: Attempts, ghost first: State)
      returns (reply: Reply, published: Option<Requested>)
      requires Shows() && Reached(first, st, Handler(g)) && g in st.gateways && st.gateways[g] == Publishing(cb, row)
      requires cb.key in store.inbound && store.inbound[cb.key] == row
      requires labels.event.Minted? && labels.trace != ""
      modifies this`requested, this`st, store`inbound
      ensures Shows() && Reached(first, st, Handler(g)) && g !in st.gateways
      ensures requested == old(requested) + if published.Some? then [published.value] else []
      ensures published.Some? <==> o.publish
      ensures published.Some? ==> published.value == RequestEvent(cb, row, labels.event, labels.trace)
      ensures cb.key in store.inbound && SameRow(row, store.inbound[cb.key])
      ensures Inv(old(st)) ==> (reply == Success200 <==> o.publish && o.mark)
      ensures reply == Success200 ==> published.Some? && store.inbound[cb.key].queued
    {
      if !o.publish {
        Follow(Hangup(g), g, first);
        return Unavailable503, None;
      }
      var e := RequestEvent(cb, row, labels.event, labels.trace);
      requested := requested + [e];
      Follow(PublishRequest(g, labels.event, labels.trace), g, first);
      reply := Mark(g, cb, row, o.mark, first);
      return reply, Some(e);
    }

    /** The second look, after another handler has won the race. */
    method Refind(ghost g: nat, cb: Callback, labels: Labels, o: Attempts, ghost first: State)
      returns (reply: Reply, published: Option<Requested>)
      requires Shows() && Reached(first, st, Handler(g)) && g in st.gateways && st.gateways[g] == Refinding(cb)
      requires labels.event.Minted? && labels.trace != ""
      modifies this`requested, this`st, store`inbound
      ensures Shows() && Reached(first, st, Handler(g)) && g !in st.gateways
      ensures requested == old(requested) + if published.Some? then [published.value] else []
      ensures published.Some? ==> IsEventOf(cb, labels, published.value)
      ensures reply == Success200 ==> cb.key in store.inbound && store.inbound[cb.key].queued
    {
      var row := store.FindInbound(cb.key, st);
      Follow(Find(g), g, first);
      if row.None? {
        return Unavailable503, None;
      }
      if row.value.queued {
        return Success200, None;
      }
      reply, published := PublishAndMark(g, cb, row.value, labels, o, first);
    }

    /** The event that is published says what the row of the callback ID says. */
    ghost predicate IsEventOf(cb: Callback, labels: Labels, e: Requested)
      reads this, store
    {
      cb.key in store.inbound && e == RequestEvent(cb, store.inbound[cb.key], labels.event, labels.trace)
    }

    /** What becomes of a callback: the event, and then the mark, as far as the calls succeed; or nothing. */
    predicate IsServed(works: bool, o: Attempts, otherwise: bool, reply: Reply, published: Option<Requested>) {
      if works then (published.Some? <==> o.publish) && (reply == Success200 <==> o.publish && o.mark)
      else published.None? && (reply == Success200 <==> otherwise)
    }

    /** There is work for the handler: a row that is not queued, or one to be made. */
    ghost predicate Works(cb: Callback, ids: Q.Acceptance)
      reads this, store
    {
      if cb.key in store.inbound then !store.inbound[cb.key].queued
      else IsUuid(cb.key.tenant) && !IsDisabled(store.users, ids)
    }

    /** The transaction as a step. */
    method InsertRow(ghost g: nat, cb: Callback, ids: Q.Acceptance, ghost first: State)
      returns (r: Result<Inbound, Refusal>)
      requires Shows() && Reached(first, st, Handler(g)) && g in st.gateways && st.gateways[g] == Inserting(cb)
      requires IsOf(ids, cb) && Q.Upserts(st.agent.db, ids) && Q.FreshIds(st.agent.db, ids)
      modifies this`st, store
      ensures Shows() && Reached(first, st, Handler(g)) && (Inv(old(st)) ==> Inv(st))
      ensures r.Success? <==>
                IsUuid(cb.key.tenant) && !IsDisabled(old(store.users), ids) && cb.key !in old(store.inbound)
      ensures r.Success? ==>
                && g in st.gateways && st.gateways[g] == Publishing(cb, r.value)
                && cb.key in store.inbound && store.inbound[cb.key] == r.value && store.HasText(cb)
      ensures r == Failure(Conflict) ==> g in st.gateways && st.gateways[g] == Refinding(cb)
      ensures r.Failure? && r.error != Conflict ==> g !in st.gateways
      ensures r == Failure(NotAUuid) <==> !IsUuid(cb.key.tenant)
      ensures r == Failure(UserDisabled) <==> IsUuid(cb.key.tenant) && IsDisabled(old(store.users), ids)
    {
      r := store.InsertInbound(cb, ids, st);
      Follow(Insert(g, ids.user, ids.conversation, ids.request, ids.input, ids.now), g, first);
    }

    /** The transaction, when no row was found before it; by now there may be one. */
    method InsertOrRefind(ghost g: nat, cb: Callback, ids: Q.Acceptance, labels: Labels, o: Attempts,
                          ghost first: State)
      returns (reply: Reply, published: Option<Requested>)
      requires Shows() && Reached(first, st, Handler(g)) && g in st.gateways && st.gateways[g] == Inserting(cb)
      requires IsOf(ids, cb) && Q.Upserts(st.agent.db, ids) && Q.FreshIds(st.agent.db, ids)
      requires labels.event.Minted? && labels.trace != ""
      modifies this, store
      ensures Shows() && Reached(first, st, Handler(g)) && g !in st.gateways
      ensures requested == old(requested) + if published.Some? then [published.value] else []
      ensures published.Some? ==> IsEventOf(cb, labels, published.value)
      ensures reply == Success200 ==>
                || (cb.key in store.inbound && store.inbound[cb.key].queued)
                || (IsUuid(cb.key.tenant) && IsDisabled(old(store.users), ids))
      ensures Inv(old(st)) && cb.key !in old(store.inbound) ==>
                && IsServed(old(Works(cb, ids)), o, IsUuid(cb.key.tenant), reply, published)
                && (old(Works(cb, ids)) ==> cb.key in store.inbound && store.HasText(cb))
    {
      var r := InsertRow(g, cb, ids, first);
      match r
      case Success(row) => reply, published := PublishAndMark(g, cb, row, labels, o, first);
      case Failure(Conflict) => reply, published := Refind(g, cb, labels, o, first);
      case Failure(UserDisabled) => return Success200, None;
      case Failure(NotAUuid) => return Unavailable503, None;
    }

    /** The callback comes in, and an earlier row is looked for. */
    method Look(ghost g: nat, cb: Callback) returns (row: Option<Inbound>)
      requires Shows() && g !in st.gateways
      modifies this`st
      ensures Shows() && Reached(old(st), st, Handler(g)) && (Inv(old(st)) ==> Inv(st)) && st.agent == old(st).agent
      ensures row == if cb.key in store.inbound then Some(store.inbound[cb.key]) else None
      ensures match row
              case None => g in st.gateways && st.gateways[g] == Inserting(cb)
              case Some(found) =>
                if found.queued then g !in st.gateways
                else g in st.gateways && st.gateways[g] == Publishing(cb, found)
    {
      ghost var first := st;
      ReachedFirst(st, Handler(g));
      Follow(Receive(g, cb), g, first);
      row := store.FindInbound(cb.key, st);
      Follow(Find(g), g, first);
    }

    /**
     The callback handler, from accepting the message on. It answers with success only when the row of the
     callback ID is marked as queued, or the sender is disabled; and it publishes at most one event, which
     says what that row says. In a state that the system can reach, a callback that is not queued yet is
     published and marked if these calls succeed.
     */
    method Handle(ghost g: nat, cb: Callback, ids: Q.Acceptance, labels: Labels, o: Attempts)
      returns (reply: Reply, published: Option<Requested>)
      requires Shows() && g !in st.gateways
      requires IsOf(ids, cb) && Q.Upserts(st.agent.db, ids) && Q.FreshIds(st.agent.db, ids)
      requires labels.event.Minted? && labels.trace != ""
      modifies this, store
      ensures Shows() && Reached(old(st), st, Handler(g)) && g !in st.gateways
      ensures requested == old(requested) + if published.Some? then [published.value] else []
      ensures published.Some? ==> IsEventOf(cb, labels, published.value)
      ensures reply == Success200 ==>
                || (cb.key in store.inbound && store.inbound[cb.key].queued)
                || (IsUuid(cb.key.tenant) && IsDisabled(old(store.users), ids))
      ensures Inv(old(st)) ==>
                IsServed(old(Works(cb, ids)), o, cb.key in old(store.inbound) || IsUuid(cb.key.tenant), reply,
                         published)
      ensures Inv(old(st)) && cb.key !in old(store.inbound) && old(Works(cb, ids)) ==>
                cb.key in store.inbound && store.HasText(cb)
    {
      ghost var first := st;
      var row := Look(g, cb);
      if row.None? {
        reply, published := InsertOrRefind(g, cb, ids, labels, o, first);
      } else if row.value.queued {
        return Success200, None;
      } else {
        reply, published := PublishAndMark(g, cb, row.value, labels, o, first);
      }
    }
  }
}
