/**
 From a WeCom callback to the sent answer: gateway, dispatcher, agent and outbound worker, composed.

 Every SQL transaction, publication, acknowledgement and send is one step, and each of the processes
 may stop between two of its steps. Entries that are not acknowledged may be handed out again at any
 time, callbacks may be repeated and race, and the agent serves other callers as well. A run is a
 list of steps; a step that cannot be taken changes nothing.
 */
module Pipeline {
  import opened Wrappers
  import opened Identity
  import opened Citations
  import Fingerprints
  import Q = QueryRuns
  import O = Outbound

  /** `UNIQUE (tenant_id, integration_id, external_message_id)` */
  datatype InboundKey = InboundKey(tenant: Id, integration: string, external: string)

  datatype Inbound = Inbound(request: Id, input: Id, user: Id, conversation: Id, queued: bool)

  datatype Callback = Callback(key: InboundKey, sender: string, content: string)

  /** Where a callback handler stands. */
  datatype Gateway =
    | Seeking(cb: Callback)                     // about to look for an earlier row
    | Inserting(cb: Callback)                   // none found; about to run the transaction
    | Refinding(cb: Callback)                   // lost the race and rolled back; about to look again
    | Publishing(cb: Callback, row: Inbound)    // accepted and not queued; about to publish
    | Queueing(cb: Callback, row: Inbound)      // published; about to mark the row

  /** The stored question, with the channel of its conversation. */
  datatype Question = Question(run: RunKey, user: Id, conversation: Id, text: string, channel: string)

  /** Where a dispatcher stands in `processOne` for the stream entry `i`. */
  datatype Dispatcher =
    | Rejecting(i: nat)                                // about to acknowledge the entry as poison
    | Asking(i: nat, question: Question)               // question loaded; waiting for the agent
    | Reporting(i: nat, question: Question, message: Id) // answered; about to publish the completion
    | Closing(i: nat)                                  // about to acknowledge

  /** `received` remembers all callbacks, and `owner` for which of them a committed transaction made a request. */
  datatype State = State(
    agent: Q.System,
    inbound: map<InboundKey, Inbound>,
    received: set<Callback>,
    owner: map<RunKey, Callback>,
    requested: seq<Requested>,
    acked: set<nat>,
    gateways: map<nat, Gateway>,
    dispatchers: map<nat, Dispatcher>,
    out: O.State)

  datatype Step =
    | Agent(agent: Q.Step)
    | Outbound(out: O.Step)
    | Receive(g: nat, cb: Callback)
    | Find(g: nat)
    | Insert(g: nat, user: Id, conversation: Id, request: Id, input: Id, now: int)
    | PublishRequest(g: nat, event: Id, trace: string)
    | MarkQueued(g: nat)
    | Hangup(g: nat)
    | Take(d: nat, entry: nat, message: Q.MessageKey, talk: Q.ConversationKey)
    | Answered(d: nat, index: nat)
    | Report(d: nat)
    | AckRequest(d: nat)
    | Stop(d: nat)

  function Empty(a: Alphabet): State {
    State(Q.Empty(a), map[], {}, map[], [], {}, map[], map[], O.Empty)
  }

  function RunOf(e: Requested): RunKey {
    RunKey(e.tenant, e.request)
  }

  function Ran(e: Completed): RunKey {
    RunKey(e.tenant, e.request)
  }

  // ---------------------------------------------------------------------------
  // The gateway
  // ---------------------------------------------------------------------------

  /** What `findInbound` lets a handler do next; a row that is queued ends the request. */
  function Found(s: State, g: nat, cb: Callback, otherwise: Gateway): State {
    if cb.key !in s.inbound then s.(gateways := s.gateways[g := otherwise])
    else if s.inbound[cb.key].queued then s.(gateways := s.gateways - {g})
    else s.(gateways := s.gateways[g := Publishing(cb, s.inbound[cb.key])])
  }

  function AcceptanceOf(cb: Callback, step: Step): Q.Acceptance
    requires step.Insert?
  {
    Q.Acceptance(cb.key.tenant, cb.sender, cb.content, step.user, step.conversation, step.request, step.input, step.now)
  }

  function InsertStep(s: State, step: Step): State
    requires step.Insert?
  {
    if step.g in s.gateways && s.gateways[step.g].Inserting? then Transaction(s, step, s.gateways[step.g].cb) else s
  }

  /** The transaction is that of the callback. */
  predicate IsOf(g: Q.Acceptance, cb: Callback) {
    g.tenant == cb.key.tenant && g.sender == cb.sender && g.content == cb.content
  }

  /** The transaction reaches its commit: the sender is not disabled and the key is new. */
  predicate Commits(s: State, cb: Callback, g: Q.Acceptance) {
    IsUuid(cb.key.tenant) && Q.Acceptable(s.agent.db, g) && cb.key !in s.inbound
  }

  function Transaction(s: State, step: Step, cb: Callback): State
    requires step.Insert?
  {
    var g := AcceptanceOf(cb, step);
    if Commits(s, cb, g) then AfterInsert(s, cb, g, step.g)
    else if !IsUuid(cb.key.tenant) then s.(gateways := s.gateways - {step.g})       // the cast to uuid fails
    else if !Q.Upserts(s.agent.db, g) || !Q.FreshIds(s.agent.db, g) then s
    else if !Q.Acceptable(s.agent.db, g) then s.(gateways := s.gateways - {step.g}) // ErrUserDisabled
    else s.(gateways := s.gateways[step.g := Refinding(cb)])
  }

  /** The tables after a committed insert. */
  function AfterInsert(s: State, cb: Callback, g: Q.Acceptance, handler: nat): State {
    var row := Inbound(g.request, g.input, g.user, Q.Talk(s.agent.db, g), false);
    s.(agent := s.agent.(db := Q.Accepted(s.agent.db, g)),
       inbound := s.inbound[cb.key := row],
       owner := s.owner[RunKey(cb.key.tenant, g.request) := cb],
       gateways := s.gateways[handler := Publishing(cb, row)])
  }

  function RequestEvent(cb: Callback, row: Inbound, event: Id, trace: string): Requested {
    Requested(event, QA_REQUESTED, "1.0", cb.key.tenant, row.request, trace, 1, WECOM, row.input, row.user,
              row.conversation, cb.key.external)
  }

  /** `UPDATE inbound_messages SET queued_at = ... WHERE tenant_id = ... AND request_id = ...` */
  function Queued(inbound: map<InboundKey, Inbound>, tenant: Id, request: Id): map<InboundKey, Inbound> {
    map k | k in inbound ::
      if k.tenant == tenant && inbound[k].request == request then inbound[k].(queued := true) else inbound[k]
  }

  function ReceiveStep(s: State, g: nat, cb: Callback): State {
    if g in s.gateways then s else s.(received := s.received + {cb}, gateways := s.gateways[g := Seeking(cb)])
  }

  function FindStep(s: State, g: nat): State {
    if g in s.gateways && s.gateways[g].Seeking? then
      Found(s, g, s.gateways[g].cb, Inserting(s.gateways[g].cb))
    else if g in s.gateways && s.gateways[g].Refinding? then
      // "duplicate inbound message disappeared" is an error that ends the request
      if s.gateways[g].cb.key in s.inbound then Found(s, g, s.gateways[g].cb, s.gateways[g])
      else s.(gateways := s.gateways - {g})
    else s
  }

  function PublishStep(s: State, g: nat, event: Id, trace: string): State {
    if g in s.gateways && s.gateways[g].Publishing? && event.Minted? && trace != "" then
      var Publishing(cb, row) := s.gateways[g];
      s.(requested := s.requested + [RequestEvent(cb, row, event, trace)],
         gateways := s.gateways[g := Queueing(cb, row)])
    else s
  }

  function MarkQueuedStep(s: State, g: nat): State {
    if g in s.gateways && s.gateways[g].Queueing? then
      s.(inbound := Queued(s.inbound, s.gateways[g].cb.key.tenant, s.gateways[g].row.request),
         gateways := s.gateways - {g})
    else s
  }

  // ---------------------------------------------------------------------------
  // The dispatcher
  // ---------------------------------------------------------------------------

  /** What `LoadQuestion` reads from the message `m` and its conversation `talk`. */
  function Loaded(db: Q.Db, m: Q.MessageKey, talk: Q.ConversationKey): Question
    requires m in db.messages
  {
    Question(m.run, db.messages[m].user, db.messages[m].conversation, db.messages[m].content, talk.channel)
  }

  /** The rows that `LoadQuestion` joins for an event: the USER message with that ID, and its conversation. */
  predicate Joins(db: Q.Db, tenant: Id, input: Id, m: Q.MessageKey, talk: Q.ConversationKey) {
    && m in db.messages && m.role == Q.User && m.run.tenant == tenant && db.messages[m].id == input
    && talk in db.conversations && talk.tenant == tenant && db.conversations[talk].id == db.messages[m].conversation
  }

  /** Validation, `LoadQuestion` and the identity check; `m` and `talk` are the rows that it reads. */
  function TakeStep(s: State, d: nat, i: nat, m: Q.MessageKey, talk: Q.ConversationKey): State {
    if d in s.dispatchers || i >= |s.requested| || i in s.acked then s
    else
      var e := s.requested[i];
      if !ValidRequested(e) then s.(dispatchers := s.dispatchers[d := Rejecting(i)])
      else if !Joins(s.agent.db, e.tenant, e.input, m, talk) then s
      else
        var question := Loaded(s.agent.db, m, talk);
        if m.run.request != e.request || question.user != e.actor
        then s.(dispatchers := s.dispatchers[d := Rejecting(i)])
        else s.(dispatchers := s.dispatchers[d := Asking(i, question)])
  }

  /** The agent's form of a question: white space reduced to single blanks. */
  function Normal(a: Alphabet, text: string): string {
    Fingerprints.Normalized(a.space, a.nfc(text))
  }

  /** The request that the agent makes of a question. */
  function Asked(a: Alphabet, question: Question): Q.Request {
    Q.Request(question.run.tenant, question.run.request, question.user, Some(question.conversation),
              Normal(a, question.text), {}, question.channel)
  }

  /** The dispatcher gets some answer the agent returned for the question it asked. */
  function AnsweredStep(s: State, d: nat, index: nat): State {
    if d in s.dispatchers && s.dispatchers[d].Asking? && index < |s.agent.returned| then
      var Asking(i, question) := s.dispatchers[d];
      var q := s.agent.returned[index].q;
      var answer := s.agent.returned[index].answer;
      if q != Asked(s.agent.alphabet, question) then s
      else if answer.conversation != question.conversation || answer.message == BLANK then
        s.(dispatchers := s.dispatchers - {d})
      else s.(dispatchers := s.dispatchers[d := Reporting(i, question, answer.message)])
    else s
  }

  function CompletionEvent(e: Requested, message: Id): Completed {
    Completed(CompletionOf(e.tenant, e.request), QA_COMPLETED, "1.0", e.tenant, e.request, e.trace, e.event, e.attempt,
              message, e.actor, e.channel)
  }

  function ReportStep(s: State, d: nat): State {
    if d in s.dispatchers && s.dispatchers[d].Reporting? && s.dispatchers[d].i < |s.requested| then
      var Reporting(i, _, message) := s.dispatchers[d];
      s.(out := O.Do(s.out, O.Publish(CompletionEvent(s.requested[i], message))),
         dispatchers := s.dispatchers[d := Closing(i)])
    else s
  }

  function AckStep(s: State, d: nat): State {
    if d in s.dispatchers && (s.dispatchers[d].Closing? || s.dispatchers[d].Rejecting?) then
      s.(acked := s.acked + {s.dispatchers[d].i}, dispatchers := s.dispatchers - {d})
    else s
  }

  ghost function Do(s: State, step: Step): State {
    match step
    case Agent(q) => s.(agent := Q.Do(s.agent, q))
    case Outbound(o) => if o.Publish? then s else s.(out := O.Do(s.out, o))
    case Receive(g, cb) => ReceiveStep(s, g, cb)
    case Find(g) => FindStep(s, g)
    case Insert(_, _, _, _, _, _) => InsertStep(s, step)
    case PublishRequest(g, event, trace) => PublishStep(s, g, event, trace)
    case MarkQueued(g) => MarkQueuedStep(s, g)
    case Hangup(g) => s.(gateways := s.gateways - {g})
    case Take(d, i, m, talk) => TakeStep(s, d, i, m, talk)
    case Answered(d, index) => AnsweredStep(s, d, index)
    case Report(d) => ReportStep(s, d)
    case AckRequest(d) => AckStep(s, d)
    case Stop(d) => s.(dispatchers := s.dispatchers - {d})
  }

  ghost function Exec(s: State, steps: seq<Step>): State
    decreases |steps|
  {
    if steps == [] then s else Exec(Do(s, steps[0]), steps[1..])
  }

  // ---------------------------------------------------------------------------
  // The invariant
  // ---------------------------------------------------------------------------

  ghost predicate HasRequest(s: State, run: RunKey) {
    exists i :: 0 <= i < |s.requested| && RunOf(s.requested[i]) == run
  }

  ghost predicate HasCompletion(s: State, run: RunKey) {
    exists j :: 0 <= j < |s.out.entries| && Ran(s.out.entries[j]) == run
  }

  ghost predicate SameRow(row: Inbound, other: Inbound) {
    row == other.(queued := row.queued)
  }

  function RowOf(s: State, run: RunKey): Inbound
    requires run in s.owner && s.owner[run].key in s.inbound
  {
    s.inbound[s.owner[run].key]
  }

  /** The USER message of the run is what the callback says: its text, from the user with the sender's ID. */
  ghost predicate SaysCallback(db: Q.Db, run: RunKey, cb: Callback, row: Inbound) {
    var m, user, talk := Q.MessageKey(run, Q.User), Q.UserKey(run.tenant, row.user),
                         Q.ConversationKey(run.tenant, row.user, WECOM);
    && m in db.messages && db.messages[m].content == cb.content
    && db.messages[m].id == row.input && db.messages[m].user == row.user
    && db.messages[m].conversation == row.conversation
    && user in db.users && db.users[user].external == cb.sender
    && talk in db.conversations && db.conversations[talk].id == row.conversation
  }

  /** The run belongs to the inbound row of a callback that came in, and the row to its USER message. */
  ghost predicate Owned(s: State, run: RunKey) {
    && run in s.owner && s.owner[run].key in s.inbound && s.owner[run] in s.received
    && IsUuid(run.tenant) && run.request.Minted?
    && var row := RowOf(s, run);
       && run == RunKey(s.owner[run].key.tenant, row.request)
       && row.input.Minted? && row.user != BLANK && IsUuid(row.user)
       && SaysCallback(s.agent.db, run, s.owner[run], row)
  }

  /** The question that the callback of the run asked. */
  function QuestionOf(s: State, run: RunKey): Question
    requires run in s.owner && s.owner[run].key in s.inbound
  {
    Question(run, RowOf(s, run).user, RowOf(s, run).conversation, s.owner[run].content, WECOM)
  }

  /** The run of the agent was claimed for the text of the callback, by its user and in its conversation. */
  ghost predicate RunAsks(s: State, run: RunKey) {
    && run in s.owner && s.owner[run].key in s.inbound && run in s.agent.db.runs
    && Q.SameInput(Asked(s.agent.alphabet, QuestionOf(s, run)), s.agent.db.runs[run].fingerprint)
  }

  ghost predicate InboundOk(s: State, key: InboundKey)
    requires key in s.inbound
  {
    var run := RunKey(key.tenant, s.inbound[key].request);
    && Owned(s, run) && s.owner[run].key == key
    && (s.inbound[key].queued ==> HasRequest(s, run))
  }

  ghost predicate GatewayOk(s: State, g: Gateway) {
    && g.cb in s.received
    && ((g.Publishing? || g.Queueing?) ==>
          && g.cb.key in s.inbound && SameRow(g.row, s.inbound[g.cb.key])
          && (g.Queueing? ==> HasRequest(s, RunKey(g.cb.key.tenant, g.row.request))))
  }

  /** A request event of the gateway: it validates, and says what the inbound row says. */
  ghost predicate RequestOk(s: State, e: Requested) {
    && ValidRequested(e) && e.channel == WECOM && Owned(s, RunOf(e))
    && var row := RowOf(s, RunOf(e));
       && e.input == row.input && e.actor == row.user && e.conversation == row.conversation
       && e.external == s.owner[RunOf(e)].key.external && e.attempt == 1
  }

  /** The run has an ASSISTANT message with that ID, and asked what its callback asked. */
  ghost predicate IsAnswered(s: State, run: RunKey, message: Id) {
    && Q.MessageKey(run, Q.Assistant) in s.agent.db.messages
    && message == s.agent.db.messages[Q.MessageKey(run, Q.Assistant)].id
    && RunAsks(s, run)
  }

  /** A completion event: everything but its trace follows from the request it belongs to. */
  ghost predicate CompletionOk(s: State, e: Completed) {
    && ValidCompleted(e) && e.channel == WECOM && Owned(s, Ran(e))
    && e.event == CompletionOf(e.tenant, e.request)
    && e.recipient == RowOf(s, Ran(e)).user && e.attempt == 1
    && IsAnswered(s, Ran(e), e.message)
  }

  ghost predicate DispatcherOk(s: State, d: Dispatcher) {
    && d.i < |s.requested|
    && var run := RunOf(s.requested[d.i]);
       && Owned(s, run)
       && match d
          case Rejecting(_) => false
          case Asking(_, question) => question == QuestionOf(s, run)
          case Reporting(_, question, message) => question == QuestionOf(s, run) && IsAnswered(s, run, message)
          case Closing(_) => HasCompletion(s, run)
  }

  ghost predicate TablesOk(s: State) {
    && Q.Reachable(s.agent) && O.Reachable(s.out)
    && (forall key :: key in s.inbound ==> InboundOk(s, key))
    && (forall run :: run in s.owner ==> Owned(s, run))
  }

  ghost predicate StreamsOk(s: State) {
    && (forall i :: 0 <= i < |s.requested| ==> RequestOk(s, s.requested[i]))
    && (forall j :: 0 <= j < |s.out.entries| ==> CompletionOk(s, s.out.entries[j]))
    && (forall i :: i in s.acked ==> i < |s.requested| && HasCompletion(s, RunOf(s.requested[i])))
  }

  ghost predicate ProcessesOk(s: State) {
    && (forall g :: g in s.gateways ==> GatewayOk(s, s.gateways[g]))
    && (forall d :: d in s.dispatchers ==> DispatcherOk(s, s.dispatchers[d]))
  }

  datatype Part = TablesPart | StreamsPart | ProcessesPart

  ghost predicate PartOk(s: State, part: Part) {
    match part
    case TablesPart => TablesOk(s)
    case StreamsPart => StreamsOk(s)
    case ProcessesPart => ProcessesOk(s)
  }

  ghost predicate Inv(s: State) {
    forall part :: PartOk(s, part)
  }

  lemma InvMeans(s: State)
    requires Inv(s)
    ensures TablesOk(s) && StreamsOk(s) && ProcessesOk(s)
  {
    assert PartOk(s, TablesPart) && PartOk(s, StreamsPart) && PartOk(s, ProcessesPart);
  }

  lemma MeansInv(s: State)
    requires TablesOk(s) && StreamsOk(s) && ProcessesOk(s)
    ensures Inv(s)
  {
  }

  // ---------------------------------------------------------------------------
  // What only grows, and what growth keeps
  // ---------------------------------------------------------------------------

  ghost predicate Grows(s: State, t: State) {
    && Q.Leads(s.agent, t.agent)
    && (forall key :: key in s.inbound ==> key in t.inbound && SameRow(s.inbound[key], t.inbound[key]))
    && (forall run :: run in s.owner ==> run in t.owner && t.owner[run] == s.owner[run])
    && s.received <= t.received
    && s.requested <= t.requested
    && s.out.entries <= t.out.entries
  }

  datatype Aspect = StandingAspect | GrowingAspect

  ghost predicate AspectOk(s: State, t: State, aspect: Aspect) {
    match aspect
    case StandingAspect => Inv(t)
    case GrowingAspect => Grows(s, t)
  }

  /** The state `t` is in order and takes nothing back of `s`. */
  ghost predicate Advances(s: State, t: State) {
    forall aspect :: AspectOk(s, t, aspect)
  }

  lemma AdvancesMeans(s: State, t: State)
    requires Advances(s, t)
    ensures Inv(t) && Grows(s, t)
  {
    assert AspectOk(s, t, StandingAspect) && AspectOk(s, t, GrowingAspect);
  }

  lemma MeansAdvances(s: State, t: State)
    requires TablesOk(t) && StreamsOk(t) && ProcessesOk(t) && Grows(s, t)
    ensures Advances(s, t)
  {
    MeansInv(t);
  }

  lemma AdvancesOn(s: State, t: State, u: State)
    requires Grows(s, t) && Advances(t, u)
    ensures Advances(s, u)
  {
    AdvancesMeans(t, u);
    GrowsTransitive(s, t, u);
  }

  lemma RequestStays(s: State, t: State, run: RunKey)
    requires Grows(s, t) && HasRequest(s, run)
    ensures HasRequest(t, run)
  {
    var i :| 0 <= i < |s.requested| && RunOf(s.requested[i]) == run;
    assert t.requested[i] == s.requested[i];
  }

  lemma CompletionStays(s: State, t: State, run: RunKey)
    requires Grows(s, t) && HasCompletion(s, run)
    ensures HasCompletion(t, run)
  {
    var j :| 0 <= j < |s.out.entries| && Ran(s.out.entries[j]) == run;
    assert t.out.entries[j] == s.out.entries[j];
  }

  lemma OwnedStays(s: State, t: State, run: RunKey)
    requires Q.Reachable(s.agent) && Grows(s, t) && Owned(s, run)
    ensures Owned(t, run) && SameRow(RowOf(s, run), RowOf(t, run)) && QuestionOf(t, run) == QuestionOf(s, run)
  {
    Q.LeadsExtends(s.agent, t.agent);
    Q.LeadsSettles(s.agent, t.agent);
  }

  lemma AnsweredStays(s: State, t: State, run: RunKey, message: Id)
    requires Q.Reachable(s.agent) && Grows(s, t) && Owned(s, run) && IsAnswered(s, run, message)
    ensures IsAnswered(t, run, message)
  {
    OwnedStays(s, t, run);
    Q.LeadsExtends(s.agent, t.agent);
  }

  lemma InboundStays(s: State, t: State, key: InboundKey)
    requires Q.Reachable(s.agent) && Grows(s, t) && key in s.inbound
    requires InboundOk(s, key) && t.inbound[key] == s.inbound[key]
    ensures InboundOk(t, key)
  {
    var run := RunKey(key.tenant, s.inbound[key].request);
    OwnedStays(s, t, run);
    if s.inbound[key].queued { RequestStays(s, t, run); }
  }

  lemma GatewayStays(s: State, t: State, g: Gateway)
    requires Grows(s, t) && GatewayOk(s, g)
    ensures GatewayOk(t, g)
  {
    if g.Queueing? { RequestStays(s, t, RunKey(g.cb.key.tenant, g.row.request)); }
  }

  lemma DispatcherStays(s: State, t: State, d: Dispatcher)
    requires Q.Reachable(s.agent) && Grows(s, t) && DispatcherOk(s, d)
    ensures DispatcherOk(t, d)
  {
    var run := RunOf(s.requested[d.i]);
    assert t.requested[d.i] == s.requested[d.i];
    OwnedStays(s, t, run);
    if d.Reporting? { AnsweredStays(s, t, run, d.message); }
    if d.Closing? { CompletionStays(s, t, run); }
  }

  lemma StreamsStay(s: State, t: State)
    requires Q.Reachable(s.agent) && Grows(s, t) && StreamsOk(s)
    requires forall i :: |s.requested| <= i < |t.requested| ==> RequestOk(t, t.requested[i])
    requires forall j :: |s.out.entries| <= j < |t.out.entries| ==> CompletionOk(t, t.out.entries[j])
    requires forall i :: i in t.acked ==> i in s.acked || (i < |t.requested| && HasCompletion(t, RunOf(t.requested[i])))
    ensures StreamsOk(t)
  {
    forall i | 0 <= i < |t.requested| ensures RequestOk(t, t.requested[i]) {
      if i < |s.requested| {
        assert t.requested[i] == s.requested[i] && RequestOk(s, s.requested[i]);
        OwnedStays(s, t, RunOf(s.requested[i]));
      }
    }
    forall j | 0 <= j < |t.out.entries| ensures CompletionOk(t, t.out.entries[j]) {
      if j < |s.out.entries| {
        assert t.out.entries[j] == s.out.entries[j] && CompletionOk(s, s.out.entries[j]);
        OwnedStays(s, t, Ran(s.out.entries[j]));
        AnsweredStays(s, t, Ran(s.out.entries[j]), s.out.entries[j].message);
      }
    }
    forall i | i in t.acked ensures i < |t.requested| && HasCompletion(t, RunOf(t.requested[i])) {
      if i in s.acked {
        assert t.requested[i] == s.requested[i];
        CompletionStays(s, t, RunOf(s.requested[i]));
      }
    }
  }

  lemma TablesStay(s: State, t: State)
    requires Grows(s, t) && TablesOk(s) && O.Reachable(t.out)
    requires forall key :: key in t.inbound ==>
               (key in s.inbound && t.inbound[key] == s.inbound[key]) || InboundOk(t, key)
    requires forall run :: run in t.owner ==> run in s.owner || Owned(t, run)
    ensures TablesOk(t)
  {
    Q.LeadsExtends(s.agent, t.agent);
    forall key | key in t.inbound ensures InboundOk(t, key) {
      if key in s.inbound && t.inbound[key] == s.inbound[key] { InboundStays(s, t, key); }
    }
    forall run | run in t.owner ensures Owned(t, run) {
      if run in s.owner { OwnedStays(s, t, run); }
    }
  }

  lemma ProcessesStay(s: State, t: State)
    requires Q.Reachable(s.agent) && Grows(s, t) && ProcessesOk(s)
    requires forall g :: g in t.gateways ==>
               (g in s.gateways && t.gateways[g] == s.gateways[g]) || GatewayOk(t, t.gateways[g])
    requires forall d :: d in t.dispatchers ==>
               (d in s.dispatchers && t.dispatchers[d] == s.dispatchers[d]) || DispatcherOk(t, t.dispatchers[d])
    ensures ProcessesOk(t)
  {
    forall g | g in t.gateways ensures GatewayOk(t, t.gateways[g]) {
      if g in s.gateways && t.gateways[g] == s.gateways[g] { GatewayStays(s, t, s.gateways[g]); }
    }
    forall d | d in t.dispatchers ensures DispatcherOk(t, t.dispatchers[d]) {
      if d in s.dispatchers && t.dispatchers[d] == s.dispatchers[d] { DispatcherStays(s, t, s.dispatchers[d]); }
    }
  }

  lemma SameTables(s: State, t: State)
    requires TablesOk(s) && Grows(s, t) && O.Reachable(t.out)
    requires t.agent == s.agent && t.inbound == s.inbound && t.owner == s.owner
    ensures TablesOk(t)
  {
    TablesStay(s, t);
  }

  lemma SameStreams(s: State, t: State)
    requires Q.Reachable(s.agent) && StreamsOk(s) && Grows(s, t)
    requires t.requested == s.requested && t.acked == s.acked && t.out.entries == s.out.entries
    ensures StreamsOk(t)
  {
    StreamsStay(s, t);
  }

  lemma SameProcesses(s: State, t: State)
    requires Q.Reachable(s.agent) && ProcessesOk(s) && Grows(s, t)
    requires t.gateways == s.gateways && t.dispatchers == s.dispatchers
    ensures ProcessesOk(t)
  {
    ProcessesStay(s, t);
  }

  lemma OneGateway(s: State, t: State, g: nat)
    requires Q.Reachable(s.agent) && ProcessesOk(s) && Grows(s, t) && t.dispatchers == s.dispatchers
    requires forall v :: v in t.gateways && v != g ==> v in s.gateways && t.gateways[v] == s.gateways[v]
    requires g in t.gateways ==> GatewayOk(t, t.gateways[g])
    ensures ProcessesOk(t)
  {
    ProcessesStay(s, t);
  }

  lemma OneDispatcher(s: State, t: State, d: nat)
    requires Q.Reachable(s.agent) && ProcessesOk(s) && Grows(s, t) && t.gateways == s.gateways
    requires forall v :: v in t.dispatchers && v != d ==> v in s.dispatchers && t.dispatchers[v] == s.dispatchers[v]
    requires d in t.dispatchers ==> DispatcherOk(t, t.dispatchers[d])
    ensures ProcessesOk(t)
  {
    ProcessesStay(s, t);
  }

  // ---------------------------------------------------------------------------
  // Each step keeps the invariant
  // ---------------------------------------------------------------------------

  lemma Unchanged(s: State)
    ensures Grows(s, s)
  {
    Q.StepLeads(s.agent, Q.Crash(0));
  }

  lemma Stays(s: State)
    requires Inv(s)
    ensures Advances(s, s)
  {
    Unchanged(s);
  }

  lemma AgentKeepsInv(s: State, step: Q.Step)
    requires Inv(s)
    ensures Advances(s, Do(s, Agent(step)))
  {
    Reachables(s);
    Q.StepLeads(s.agent, step);
    AgentAdvances(s, Do(s, Agent(step)));
  }

  lemma AgentAdvances(s: State, t: State)
    requires Inv(s) && Grows(s, t) && t == s.(agent := t.agent)
    ensures Advances(s, t)
  {
    InvMeans(s);
    TablesStay(s, t);
    SameStreams(s, t);
    SameProcesses(s, t);
    MeansAdvances(s, t);
  }

  lemma OutboundKeepsInv(s: State, step: O.Step)
    requires Inv(s)
    ensures Advances(s, Do(s, Outbound(step)))
  {
    Stays(s);
    if !step.Publish? {
      InvMeans(s);
      O.ReachableStep(s.out, step);
      OnlyPublishAddsEntries(s.out, step);
      NewOutbound(s, O.Do(s.out, step));
    }
  }

  lemma OnlyPublishAddsEntries(s: O.State, step: O.Step)
    requires !step.Publish?
    ensures O.Do(s, step).entries == s.entries
  {}

  lemma NewOutbound(s: State, out: O.State)
    requires Inv(s) && O.Reachable(out) && out.entries == s.out.entries
    ensures Advances(s, s.(out := out))
  {
    InvMeans(s);
    var t := s.(out := out);
    Unchanged(s);
    SameTables(s, t);
    SameStreams(s, t);
    SameProcesses(s, t);
    MeansAdvances(s, t);
  }

  lemma InsertGrows(s: State, cb: Callback, g: Q.Acceptance, handler: nat)
    requires Inv(s) && Commits(s, cb, g) && IsOf(g, cb)
    ensures Grows(s, AfterInsert(s, cb, g, handler))
  {
    Q.StepLeads(s.agent, Q.Accept(g));
    assert RunKey(cb.key.tenant, g.request) !in s.owner by {
      if RunKey(cb.key.tenant, g.request) in s.owner { OwnedIsIssued(s, RunKey(cb.key.tenant, g.request)); }
    }
  }

  lemma InsertedRowOk(s: State, cb: Callback, g: Q.Acceptance, handler: nat)
    requires Commits(s, cb, g) && IsOf(g, cb) && cb in s.received && Q.Inv(s.agent)
    ensures var t := AfterInsert(s, cb, g, handler); InboundOk(t, cb.key) && GatewayOk(t, t.gateways[handler])
  {}

  lemma OwnedIsIssued(s: State, run: RunKey)
    requires Inv(s) && run in s.owner
    ensures run.request in s.agent.db.issued
  {
    InvMeans(s);
    Q.ReachableInv(s.agent);
    assert Owned(s, run);
  }

  lemma InsertKeepsInv(s: State, cb: Callback, g: Q.Acceptance, handler: nat)
    requires Inv(s) && Commits(s, cb, g) && IsOf(g, cb) && cb in s.received
    ensures Advances(s, AfterInsert(s, cb, g, handler))
  {
    var t := AfterInsert(s, cb, g, handler);
    Reachables(s);
    Q.ReachableInv(s.agent);
    InsertGrows(s, cb, g, handler);
    InsertedRowOk(s, cb, g, handler);
    InsertAdvances(s, t, cb.key, handler);
  }

  /** One row, its run and one handler are new. */
  lemma InsertAdvances(s: State, t: State, key: InboundKey, handler: nat)
    requires Inv(s) && Grows(s, t) && key in t.inbound && handler in t.gateways
    requires t == s.(agent := t.agent, inbound := t.inbound, owner := t.owner, gateways := t.gateways)
    requires t.inbound == s.inbound[key := t.inbound[key]] && t.gateways == s.gateways[handler := t.gateways[handler]]
    requires t.owner.Keys <= s.owner.Keys + {RunKey(key.tenant, t.inbound[key].request)}
    requires InboundOk(t, key) && GatewayOk(t, t.gateways[handler])
    ensures Advances(s, t)
  {
    InvMeans(s);
    TablesStay(s, t);
    SameStreams(s, t);
    OneGateway(s, t, handler);
    MeansAdvances(s, t);
  }

  /** The stream of requests has one more entry, and at most one handler has moved. */
  lemma RequestAdvances(s: State, t: State, g: nat, e: Requested)
    requires Inv(s) && t == s.(requested := s.requested + [e], gateways := t.gateways)
    requires forall v :: v in t.gateways && v != g ==> v in s.gateways && t.gateways[v] == s.gateways[v]
    requires RequestOk(t, e) && (g in t.gateways ==> GatewayOk(t, t.gateways[g]))
    ensures Advances(s, t)
  {
    InvMeans(s);
    Unchanged(s);
    RequestKeepsTables(s, t, e);
    StreamsStay(s, t);
    OneGateway(s, t, g);
    MeansAdvances(s, t);
  }

  lemma RequestKeepsTables(s: State, t: State, e: Requested)
    requires TablesOk(s) && t == s.(requested := s.requested + [e], gateways := t.gateways)
    ensures TablesOk(t) && Grows(s, t)
  {
    Unchanged(s);
    SameTables(s, t);
  }

  lemma OneMoreRequest(s: State, g: nat, gateway: Gateway, e: Requested)
    requires Inv(s)
    requires var t := s.(requested := s.requested + [e], gateways := s.gateways[g := gateway]);
             RequestOk(t, e) && GatewayOk(t, gateway)
    ensures Advances(s, s.(requested := s.requested + [e], gateways := s.gateways[g := gateway]))
  {
    RequestAdvances(s, s.(requested := s.requested + [e], gateways := s.gateways[g := gateway]), g, e);
  }

  lemma RequestEventOk(s: State, g: nat, event: Id, trace: string)
    requires TablesOk(s) && g in s.gateways && GatewayOk(s, s.gateways[g]) && s.gateways[g].Publishing?
    requires event.Minted? && trace != ""
    ensures var Publishing(cb, row) := s.gateways[g];
            var e := RequestEvent(cb, row, event, trace);
            var t := s.(requested := s.requested + [e], gateways := s.gateways[g := Queueing(cb, row)]);
            RequestOk(t, e) && GatewayOk(t, Queueing(cb, row))
  {
    var Publishing(cb, row) := s.gateways[g];
    assert InboundOk(s, cb.key);
    var e := RequestEvent(cb, row, event, trace);
    var t := s.(requested := s.requested + [e], gateways := s.gateways[g := Queueing(cb, row)]);
    assert t.requested[|s.requested|] == e && RunOf(e) == RunKey(cb.key.tenant, row.request);
  }

  lemma QueuedGrows(s: State, tenant: Id, request: Id)
    ensures Grows(s, s.(inbound := Queued(s.inbound, tenant, request)))
  {
    Unchanged(s);
  }

  lemma QueuedRowOk(s: State, t: State, tenant: Id, request: Id, key: InboundKey)
    requires Q.Reachable(s.agent) && Grows(s, t) && HasRequest(s, RunKey(tenant, request))
    requires t.inbound == Queued(s.inbound, tenant, request) && key in s.inbound && InboundOk(s, key)
    requires t.inbound[key] != s.inbound[key] && t.owner == s.owner
    ensures InboundOk(t, key)
  {
    RequestStays(s, t, RunKey(tenant, request));
    OwnedStays(s, t, RunKey(key.tenant, s.inbound[key].request));
  }

  lemma QueuedRows(s: State, tenant: Id, request: Id)
    requires TablesOk(s) && HasRequest(s, RunKey(tenant, request))
    ensures var t := s.(inbound := Queued(s.inbound, tenant, request)); TablesOk(t) && Grows(s, t)
  {
    var t := s.(inbound := Queued(s.inbound, tenant, request));
    QueuedGrows(s, tenant, request);
    forall key | key in t.inbound && t.inbound[key] != s.inbound[key] ensures InboundOk(t, key) {
      QueuedRowOk(s, t, tenant, request, key);
    }
    TablesStay(s, t);
  }

  lemma MarkQueuedKeepsInv(s: State, g: nat, tenant: Id, request: Id)
    requires Inv(s) && HasRequest(s, RunKey(tenant, request))
    ensures var t := s.(inbound := Queued(s.inbound, tenant, request), gateways := s.gateways - {g});
            Advances(s, t)
  {
    InvMeans(s);
    var mid := s.(inbound := Queued(s.inbound, tenant, request));
    QueuedRows(s, tenant, request);
    SameStreams(s, mid);
    SameProcesses(s, mid);
    MeansInv(mid);
    GatewayEnds(mid, g);
    AdvancesOn(s, mid, mid.(gateways := mid.gateways - {g}));
  }

  /** A step that changes no table and no stream. */
  ghost predicate IsLocal(s: State, t: State) {
    t == s.(gateways := t.gateways, dispatchers := t.dispatchers)
  }

  lemma LocalGrows(s: State, t: State)
    requires IsLocal(s, t)
    ensures Grows(s, t)
  {
    Unchanged(s);
  }

  lemma LocalAdvances(s: State, t: State)
    requires Inv(s) && IsLocal(s, t) && ProcessesOk(t)
    ensures Advances(s, t)
  {
    InvMeans(s);
    LocalGrows(s, t);
    SameTables(s, t);
    SameStreams(s, t);
    MeansAdvances(s, t);
  }

  lemma LocalGatewayAdvances(s: State, t: State, g: nat)
    requires Inv(s) && IsLocal(s, t) && t.dispatchers == s.dispatchers
    requires forall v :: v in t.gateways && v != g ==> v in s.gateways && t.gateways[v] == s.gateways[v]
    requires g in t.gateways ==> GatewayOk(s, t.gateways[g])
    ensures Advances(s, t)
  {
    InvMeans(s);
    LocalGrows(s, t);
    if g in t.gateways { GatewayStays(s, t, t.gateways[g]); }
    OneGateway(s, t, g);
    LocalAdvances(s, t);
  }

  lemma LocalDispatcherAdvances(s: State, t: State, d: nat)
    requires Inv(s) && IsLocal(s, t) && t.gateways == s.gateways
    requires forall v :: v in t.dispatchers && v != d ==> v in s.dispatchers && t.dispatchers[v] == s.dispatchers[v]
    requires d in t.dispatchers ==> DispatcherOk(s, t.dispatchers[d])
    ensures Advances(s, t)
  {
    InvMeans(s);
    LocalGrows(s, t);
    if d in t.dispatchers { DispatcherStays(s, t, t.dispatchers[d]); }
    OneDispatcher(s, t, d);
    LocalAdvances(s, t);
  }

  lemma GatewayMoves(s: State, g: nat, gateway: Gateway)
    requires Inv(s) && GatewayOk(s, gateway)
    ensures Advances(s, s.(gateways := s.gateways[g := gateway]))
  {
    LocalGatewayAdvances(s, s.(gateways := s.gateways[g := gateway]), g);
  }

  lemma GatewayEnds(s: State, g: nat)
    requires Inv(s)
    ensures Advances(s, s.(gateways := s.gateways - {g}))
  {
    LocalGatewayAdvances(s, s.(gateways := s.gateways - {g}), g);
  }

  lemma FoundKeepsInv(s: State, g: nat, cb: Callback, otherwise: Gateway)
    requires Inv(s) && cb in s.received && otherwise.cb == cb && !otherwise.Publishing? && !otherwise.Queueing?
    ensures Advances(s, Found(s, g, cb, otherwise))
  {
    if cb.key !in s.inbound {
      GatewayMoves(s, g, otherwise);
    } else if s.inbound[cb.key].queued {
      GatewayEnds(s, g);
    } else {
      GatewayMoves(s, g, Publishing(cb, s.inbound[cb.key]));
    }
  }

  lemma FindKeepsInv(s: State, g: nat)
    requires Inv(s)
    ensures Advances(s, FindStep(s, g))
  {
    InvMeans(s);
    if g in s.gateways { assert GatewayOk(s, s.gateways[g]); }
    if g in s.gateways && s.gateways[g].Seeking? {
      FoundKeepsInv(s, g, s.gateways[g].cb, Inserting(s.gateways[g].cb));
    } else if g in s.gateways && s.gateways[g].Refinding? && s.gateways[g].cb.key in s.inbound {
      FoundKeepsInv(s, g, s.gateways[g].cb, s.gateways[g]);
    } else if g in s.gateways && s.gateways[g].Refinding? {
      GatewayEnds(s, g);
    } else {
      Stays(s);
    }
  }

  lemma TransactionKeepsInv(s: State, step: Step, cb: Callback)
    requires Inv(s) && step.Insert? && cb in s.received
    ensures Advances(s, Transaction(s, step, cb))
  {
    Stays(s);
    if Commits(s, cb, AcceptanceOf(cb, step)) {
      InsertKeepsInv(s, cb, AcceptanceOf(cb, step), step.g);
    } else {
      GatewayEnds(s, step.g);
      GatewayMoves(s, step.g, Refinding(cb));
    }
  }

  lemma PublishKeepsInv(s: State, g: nat, event: Id, trace: string)
    requires Inv(s)
    ensures Advances(s, PublishStep(s, g, event, trace))
  {
    InvMeans(s);
    if g in s.gateways && s.gateways[g].Publishing? && event.Minted? && trace != "" {
      var Publishing(cb, row) := s.gateways[g];
      assert GatewayOk(s, s.gateways[g]);
      RequestEventOk(s, g, event, trace);
      OneMoreRequest(s, g, Queueing(cb, row), RequestEvent(cb, row, event, trace));
    } else {
      Stays(s);
    }
  }

  lemma MarkQueuedStepKeepsInv(s: State, g: nat)
    requires Inv(s)
    ensures Advances(s, MarkQueuedStep(s, g))
  {
    InvMeans(s);
    if g in s.gateways && s.gateways[g].Queueing? {
      var Queueing(cb, row) := s.gateways[g];
      assert GatewayOk(s, s.gateways[g]);
      MarkQueuedKeepsInv(s, g, cb.key.tenant, row.request);
    } else {
      Stays(s);
    }
  }

  lemma DispatcherMoves(s: State, d: nat, dispatcher: Dispatcher)
    requires Inv(s) && DispatcherOk(s, dispatcher)
    ensures Advances(s, s.(dispatchers := s.dispatchers[d := dispatcher]))
  {
    LocalDispatcherAdvances(s, s.(dispatchers := s.dispatchers[d := dispatcher]), d);
  }

  lemma DispatcherEnds(s: State, d: nat)
    requires Inv(s)
    ensures Advances(s, s.(dispatchers := s.dispatchers - {d}))
  {
    LocalDispatcherAdvances(s, s.(dispatchers := s.dispatchers - {d}), d);
  }

  /** `LoadQuestion` reads the rows of the event's own request, and they are unique. */
  lemma JoinsItsOwn(s: State, i: nat, m: Q.MessageKey, talk: Q.ConversationKey)
    requires Inv(s) && i < |s.requested| && Joins(s.agent.db, s.requested[i].tenant, s.requested[i].input, m, talk)
    ensures var run := RunOf(s.requested[i]);
            m == Q.MessageKey(run, Q.User) && Owned(s, run) && Loaded(s.agent.db, m, talk) == QuestionOf(s, run)
  {
    InvMeans(s);
    Q.ReachableInv(s.agent);
    Q.StepLeads(s.agent, Q.Crash(0));
    Q.LeadsSettles(s.agent, s.agent);
    Q.PlacedMeans(s.agent);
    assert RequestOk(s, s.requested[i]);
    var row := RowOf(s, RunOf(s.requested[i]));
    assert talk == Q.ConversationKey(m.run.tenant, row.user, WECOM);
  }

  /** The entry a dispatcher takes passes validation and the identity check, so none is rejected. */
  lemma TakenEntryIsAsked(s: State, d: nat, i: nat, m: Q.MessageKey, talk: Q.ConversationKey)
    requires Inv(s) && TakeStep(s, d, i, m, talk) != s
    ensures i < |s.requested| && m == Q.MessageKey(RunOf(s.requested[i]), Q.User) && Owned(s, m.run)
    ensures TakeStep(s, d, i, m, talk) == s.(dispatchers := s.dispatchers[d := Asking(i, QuestionOf(s, m.run))])
  {
    InvMeans(s);
    assert RequestOk(s, s.requested[i]);
    JoinsItsOwn(s, i, m, talk);
  }

  /** The conversation of an event. */
  function TalkOf(e: Requested): Q.ConversationKey {
    Q.ConversationKey(e.tenant, e.actor, WECOM)
  }

  /** Every entry that is not acknowledged can be taken: `LoadQuestion` finds what the callback asked. */
  lemma EntryCanBeTaken(s: State, d: nat, i: nat)
    requires Inv(s) && d !in s.dispatchers && i < |s.requested| && i !in s.acked
    ensures var e := s.requested[i];
            var t := TakeStep(s, d, i, Q.MessageKey(RunOf(e), Q.User), TalkOf(e));
            && Joins(s.agent.db, e.tenant, e.input, Q.MessageKey(RunOf(e), Q.User), TalkOf(e))
            && Owned(s, RunOf(e)) && d in t.dispatchers && t.dispatchers[d] == Asking(i, QuestionOf(s, RunOf(e)))
  {
    InvMeans(s);
    assert RequestOk(s, s.requested[i]);
  }

  lemma TakeKeepsInv(s: State, d: nat, i: nat, m: Q.MessageKey, talk: Q.ConversationKey)
    requires Inv(s)
    ensures Advances(s, TakeStep(s, d, i, m, talk))
  {
    if TakeStep(s, d, i, m, talk) == s {
      Stays(s);
    } else {
      TakenEntryIsAsked(s, d, i, m, talk);
      DispatcherMoves(s, d, Asking(i, QuestionOf(s, m.run)));
    }
  }

  /** The message an execution returned for a question is the answer that is stored for it. */
  lemma AnswerNamesMessage(s: State, i: nat, question: Question, index: nat)
    requires Q.Reachable(s.agent) && DispatcherOk(s, Asking(i, question)) && index < |s.agent.returned|
    requires s.agent.returned[index].q == Asked(s.agent.alphabet, question)
    ensures DispatcherOk(s, Reporting(i, question, s.agent.returned[index].answer.message))
  {
    Q.ReachableInv(s.agent);
    assert Q.ReturnOk(s.agent.db, s.agent.returned[index]);
  }

  lemma AnsweredKeepsInv(s: State, d: nat, index: nat)
    requires Inv(s)
    ensures Advances(s, AnsweredStep(s, d, index))
  {
    Stays(s);
    var t := AnsweredStep(s, d, index);
    if t == s {
    } else if d !in t.dispatchers {
      DispatcherEnds(s, d);
    } else {
      ReceivedAnswerKeepsInv(s, d, index, s.dispatchers[d].i, s.dispatchers[d].question);
    }
  }

  lemma ReceivedAnswerKeepsInv(s: State, d: nat, index: nat, i: nat, question: Question)
    requires Inv(s) && d in s.dispatchers && s.dispatchers[d] == Asking(i, question)
    requires index < |s.agent.returned| && s.agent.returned[index].q == Asked(s.agent.alphabet, question)
    ensures var message := s.agent.returned[index].answer.message;
            var t := s.(dispatchers := s.dispatchers[d := Reporting(i, question, message)]);
            Advances(s, t)
  {
    InvMeans(s);
    assert DispatcherOk(s, s.dispatchers[d]);
    AnswerNamesMessage(s, i, question, index);
    DispatcherMoves(s, d, Reporting(i, question, s.agent.returned[index].answer.message));
  }

  lemma CompletionEventOk(s: State, i: nat, message: Id)
    requires i < |s.requested| && RequestOk(s, s.requested[i]) && Q.Reachable(s.agent)
    requires IsAnswered(s, RunOf(s.requested[i]), message)
    ensures CompletionOk(s, CompletionEvent(s.requested[i], message))
  {
    Q.ReachableInv(s.agent);
  }

  lemma Reachables(s: State)
    requires Inv(s)
    ensures Q.Reachable(s.agent) && O.Reachable(s.out)
  {
    InvMeans(s);
  }

  /** Only completions and acknowledgements are added. */
  lemma CompletionsAdvance(s: State, t: State)
    requires Inv(s) && Grows(s, t) && O.Reachable(t.out) && t == s.(acked := t.acked, out := t.out)
    requires forall j :: |s.out.entries| <= j < |t.out.entries| ==> CompletionOk(t, t.out.entries[j])
    requires forall i :: i in t.acked && i !in s.acked ==>
               i < |t.requested| && HasCompletion(t, RunOf(t.requested[i]))
    ensures Advances(s, t)
  {
    InvMeans(s);
    SameTables(s, t);
    StreamsStay(s, t);
    SameProcesses(s, t);
    MeansAdvances(s, t);
  }

  lemma OneMoreCompletion(s: State, e: Completed)
    requires Inv(s) && CompletionOk(s, e)
    ensures var t := s.(out := O.Do(s.out, O.Publish(e))); Advances(s, t) && HasCompletion(t, Ran(e))
  {
    var t := s.(out := O.Do(s.out, O.Publish(e)));
    Reachables(s);
    O.ReachableStep(s.out, O.Publish(e));
    Unchanged(s);
    assert t.out.entries[|s.out.entries|] == e;
    CompletionsAdvance(s, t);
  }

  lemma ReportedKeepsInv(s: State, d: nat, i: nat, e: Completed)
    requires Inv(s) && CompletionOk(s, e) && i < |s.requested| && RunOf(s.requested[i]) == Ran(e)
    ensures var t := s.(out := O.Do(s.out, O.Publish(e)), dispatchers := s.dispatchers[d := Closing(i)]);
            Advances(s, t)
  {
    var mid := s.(out := O.Do(s.out, O.Publish(e)));
    OneMoreCompletion(s, e);
    AdvancesMeans(s, mid);
    DispatcherMoves(mid, d, Closing(i));
    AdvancesOn(s, mid, mid.(dispatchers := mid.dispatchers[d := Closing(i)]));
  }

  lemma ReportKeepsInv(s: State, d: nat)
    requires Inv(s)
    ensures Advances(s, ReportStep(s, d))
  {
    InvMeans(s);
    if d in s.dispatchers && s.dispatchers[d].Reporting? && s.dispatchers[d].i < |s.requested| {
      var Reporting(i, question, message) := s.dispatchers[d];
      assert DispatcherOk(s, s.dispatchers[d]) && RequestOk(s, s.requested[i]);
      CompletionEventOk(s, i, message);
      ReportedKeepsInv(s, d, i, CompletionEvent(s.requested[i], message));
    } else {
      Stays(s);
    }
  }

  lemma AckStepKeepsInv(s: State, d: nat)
    requires Inv(s)
    ensures Advances(s, AckStep(s, d))
  {
    InvMeans(s);
    if d in s.dispatchers && (s.dispatchers[d].Closing? || s.dispatchers[d].Rejecting?) {
      assert DispatcherOk(s, s.dispatchers[d]);
      AckKeepsInv(s, d, s.dispatchers[d].i);
    } else {
      Stays(s);
    }
  }

  lemma AckedGrows(s: State, i: nat)
    requires Inv(s) && i < |s.requested| && HasCompletion(s, RunOf(s.requested[i]))
    ensures var t := s.(acked := s.acked + {i}); Advances(s, t)
  {
    var t := s.(acked := s.acked + {i});
    Reachables(s);
    Unchanged(s);
    CompletionStays(s, t, RunOf(s.requested[i]));
    CompletionsAdvance(s, t);
  }

  lemma AckKeepsInv(s: State, d: nat, i: nat)
    requires Inv(s) && i < |s.requested| && HasCompletion(s, RunOf(s.requested[i]))
    ensures var t := s.(acked := s.acked + {i}, dispatchers := s.dispatchers - {d}); Advances(s, t)
  {
    var mid := s.(acked := s.acked + {i});
    AckedGrows(s, i);
    AdvancesMeans(s, mid);
    DispatcherEnds(mid, d);
    AdvancesOn(s, mid, mid.(dispatchers := mid.dispatchers - {d}));
  }

  lemma ReceivedGrows(s: State, cb: Callback)
    requires Inv(s)
    ensures Advances(s, s.(received := s.received + {cb}))
  {
    InvMeans(s);
    var t := s.(received := s.received + {cb});
    Unchanged(s);
    SameTables(s, t);
    SameStreams(s, t);
    SameProcesses(s, t);
    MeansAdvances(s, t);
  }

  lemma ReceiveKeepsInv(s: State, g: nat, cb: Callback)
    requires Inv(s)
    ensures Advances(s, ReceiveStep(s, g, cb))
  {
    Stays(s);
    if g !in s.gateways {
      var mid := s.(received := s.received + {cb});
      ReceivedGrows(s, cb);
      AdvancesMeans(s, mid);
      GatewayMoves(mid, g, Seeking(cb));
      AdvancesOn(s, mid, ReceiveStep(s, g, cb));
    }
  }

  lemma InsertStepKeepsInv(s: State, step: Step)
    requires Inv(s) && step.Insert?
    ensures Advances(s, InsertStep(s, step))
  {
    Stays(s);
    if step.g in s.gateways && s.gateways[step.g].Inserting? {
      InvMeans(s);
      assert GatewayOk(s, s.gateways[step.g]);
      TransactionKeepsInv(s, step, s.gateways[step.g].cb);
    }
  }

  lemma GatewayStepKeepsInv(s: State, step: Step)
    requires Inv(s) && !step.Agent? && !step.Outbound?
    requires !step.Take? && !step.Answered? && !step.Report? && !step.AckRequest? && !step.Stop?
    ensures Advances(s, Do(s, step))
  {
    match step
    case Receive(g, cb) => ReceiveKeepsInv(s, g, cb);
    case Find(g) => FindKeepsInv(s, g);
    case Insert(_, _, _, _, _, _) => InsertStepKeepsInv(s, step);
    case PublishRequest(g, event, trace) => PublishKeepsInv(s, g, event, trace);
    case MarkQueued(g) => MarkQueuedStepKeepsInv(s, g);
    case Hangup(g) => GatewayEnds(s, g);
  }

  lemma StepAdvances(s: State, step: Step)
    requires Inv(s)
    ensures Advances(s, Do(s, step))
  {
    match step
    case Agent(q) => AgentKeepsInv(s, q);
    case Outbound(o) => OutboundKeepsInv(s, o);
    case Take(d, i, m, talk) => TakeKeepsInv(s, d, i, m, talk);
    case Answered(d, index) => AnsweredKeepsInv(s, d, index);
    case Report(d) => ReportKeepsInv(s, d);
    case AckRequest(d) => AckStepKeepsInv(s, d);
    case Stop(d) => DispatcherEnds(s, d);
    case _ => GatewayStepKeepsInv(s, step);
  }

  /** No step of any process, in any order, breaks the invariant. */
  lemma StepKeepsInv(s: State, step: Step)
    requires Inv(s)
    ensures Inv(Do(s, step)) && Grows(s, Do(s, step))
  {
    StepAdvances(s, step);
    AdvancesMeans(s, Do(s, step));
  }

  // ---------------------------------------------------------------------------
  // Main results, over whole runs
  // ---------------------------------------------------------------------------

  lemma GrowsTransitive(s: State, t: State, u: State)
    requires Grows(s, t) && Grows(t, u)
    ensures Grows(s, u)
  {
    Q.LeadsOn(s.agent, t.agent, u.agent);
  }

  lemma {:induction false} RunKeepsInv(s: State, steps: seq<Step>)
    requires Inv(s)
    ensures Inv(Exec(s, steps)) && Grows(s, Exec(s, steps))
    decreases |steps|
  {
    if steps == [] {
      Unchanged(s);
    } else {
      StepKeepsInv(s, steps[0]);
      RunKeepsInv(Do(s, steps[0]), steps[1..]);
      GrowsTransitive(s, Do(s, steps[0]), Exec(s, steps));
    }
  }

  lemma EmptyRunKeepsInv(a: Alphabet, steps: seq<Step>)
    ensures Inv(Exec(Empty(a), steps))
  {
    assert O.Exec(O.Empty, []) == O.Empty;
    Q.StepLeads(Q.Empty(a), Q.Crash(0));
    MeansInv(Empty(a));
    RunKeepsInv(Empty(a), steps);
  }

  /** Some run leads from the empty system to `s`. */
  ghost predicate Reachable(a: Alphabet, s: State) {
    exists steps :: Exec(Empty(a), steps) == s
  }

  lemma ReachableInv(a: Alphabet, s: State)
    requires Reachable(a, s)
    ensures Inv(s)
  {
    var steps :| Exec(Empty(a), steps) == s;
    EmptyRunKeepsInv(a, steps);
  }

  /**
   The event is a send of the run's stored answer to the user who asked; and the run was claimed for the
   text of the callback.
   */
  ghost predicate IsAnswerOf(s: State, event: O.Event, run: RunKey) {
    && event.SendEvent? && event.key == O.DeliveryKey(run.tenant, CompletionOf(run.tenant, run.request))
    && Owned(s, run) && event.recipient == RowOf(s, run).user && IsAnswered(s, run, event.message)
  }

  /** The stored answer of the run has been sent to the user who asked. */
  ghost predicate AnswerSent(s: State, run: RunKey) {
    exists n :: 0 <= n < |s.out.log| && IsAnswerOf(s, s.out.log[n], run)
  }

  ghost predicate RequestPending(s: State, run: RunKey) {
    exists i :: 0 <= i < |s.requested| && RunOf(s.requested[i]) == run && i !in s.acked
  }

  ghost predicate CompletionPending(s: State, run: RunKey) {
    && Q.MessageKey(run, Q.Assistant) in s.agent.db.messages
    && exists j :: 0 <= j < |s.out.entries| && Ran(s.out.entries[j]) == run && j !in s.out.acked
                && s.out.entries[j].message == s.agent.db.messages[Q.MessageKey(run, Q.Assistant)].id
  }

  /** Every send there ever was carries the stored answer of its request, and goes to the user who asked. */
  lemma EverySendIsTheAnswer(s: State, n: nat) returns (run: RunKey)
    requires Inv(s) && n < |s.out.log| && s.out.log[n].SendEvent?
    ensures IsAnswerOf(s, s.out.log[n], run)
  {
    InvMeans(s);
    O.ReachableInv(s.out);
    O.InvMeans(s.out);
    var send := s.out.log[n];
    assert O.FromEntry(s.out, send.key, send.message, send.recipient);
    var k :| 0 <= k < |s.out.entries| && O.KeyOf(s.out.entries[k]) == send.key
             && s.out.entries[k].message == send.message && s.out.entries[k].recipient == send.recipient;
    run := Ran(s.out.entries[k]);
    assert CompletionOk(s, s.out.entries[k]);
  }

  lemma AcknowledgedCompletionWasSent(s: State, j: nat)
    requires Inv(s) && j < |s.out.entries| && j in s.out.acked
    ensures AnswerSent(s, Ran(s.out.entries[j]))
  {
    InvMeans(s);
    O.ReachableInv(s.out);
    O.InvMeans(s.out);
    var e := s.out.entries[j];
    assert CompletionOk(s, e) && O.Discharged(s.out, j);
    var n :| 0 <= n < |s.out.log| && s.out.log[n].SendEvent? && s.out.log[n].key == O.KeyOf(e);
    var run := EverySendIsTheAnswer(s, n);
    assert run == Ran(e);
  }

  /**
   Nothing is lost: at every point of every run, a callback that was marked as queued still has a
   request event to be processed, or a completion event with its answer to be delivered, or its answer
   has been sent.
   */
  lemma NothingIsLost(a: Alphabet, s: State, key: InboundKey)
    requires Reachable(a, s) && key in s.inbound && s.inbound[key].queued
    ensures var run := RunKey(key.tenant, s.inbound[key].request);
            RequestPending(s, run) || CompletionPending(s, run) || AnswerSent(s, run)
  {
    ReachableInv(a, s);
    InvMeans(s);
    var run := RunKey(key.tenant, s.inbound[key].request);
    assert InboundOk(s, key);
    RequestedIsNotLost(s, run);
  }

  lemma RequestedIsNotLost(s: State, run: RunKey)
    requires Inv(s) && HasRequest(s, run)
    ensures RequestPending(s, run) || CompletionPending(s, run) || AnswerSent(s, run)
  {
    InvMeans(s);
    var i :| 0 <= i < |s.requested| && RunOf(s.requested[i]) == run;
    if i in s.acked {
      assert HasCompletion(s, run);
      var j :| 0 <= j < |s.out.entries| && Ran(s.out.entries[j]) == run;
      assert CompletionOk(s, s.out.entries[j]);
      if j in s.out.acked { AcknowledgedCompletionWasSent(s, j); }
    }
  }

  /** The handler has accepted a callback of this ID and has its row. */
  ghost predicate HasRowOf(s: State, g: nat, key: InboundKey) {
    g in s.gateways && (s.gateways[g].Publishing? || s.gateways[g].Queueing?) && s.gateways[g].cb.key == key
  }

  /**
   One callback ID, one row: whatever races and repetitions follow, the row keeps its request, its
   message, its user and its conversation, every handler of that ID works with exactly these, and no
   other committed insert ever belongs to that ID.
   */
  lemma OneRequestPerCallback(a: Alphabet, s: State, t: State, after: seq<Step>, key: InboundKey, run: RunKey, g: nat)
    requires Reachable(a, s) && t == Exec(s, after) && key in s.inbound
    ensures && key in t.inbound && SameRow(s.inbound[key], t.inbound[key])
            && (run in t.owner && t.owner[run].key == key ==> run == RunKey(key.tenant, t.inbound[key].request))
            && (HasRowOf(t, g, key) ==> SameRow(t.gateways[g].row, t.inbound[key]))
  {
    ReachableInv(a, s);
    InvMeans(s);
    RunKeepsInv(s, after);
    InvMeans(t);
    if run in t.owner { assert Owned(t, run); }
    if g in t.gateways { assert GatewayOk(t, t.gateways[g]); }
  }

  /**
   A row belongs to a callback that came in with its ID, and at all later times its USER message is that
   callback's text, from the user with the sender's ID and in that user's conversation.
   */
  lemma QuestionIsTheCallbacks(a: Alphabet, s: State, t: State, after: seq<Step>, key: InboundKey)
    returns (cb: Callback)
    requires Reachable(a, s) && t == Exec(s, after) && key in s.inbound
    ensures cb in s.received && cb.key == key
    ensures var row, db := s.inbound[key], t.agent.db;
            var m, user := Q.MessageKey(RunKey(key.tenant, row.request), Q.User), Q.UserKey(key.tenant, row.user);
            var talk := Q.ConversationKey(key.tenant, row.user, WECOM);
            && m in db.messages && db.messages[m].content == cb.content && db.messages[m].user == row.user
            && user in db.users && db.users[user].external == cb.sender
            && talk in db.conversations && db.conversations[talk].id == db.messages[m].conversation
  {
    ReachableInv(a, s);
    InvMeans(s);
    assert InboundOk(s, key);
    var run := RunKey(key.tenant, s.inbound[key].request);
    cb := s.owner[run];
    RunKeepsInv(s, after);
    OwnedStays(s, t, run);
  }

  /**
   Whatever was sent to anyone answers a callback that came in: it went to the user with the sender's ID,
   and it is the stored answer of a run that was claimed for that user, in that user's conversation, with the
   text of the callback as the question.
   */
  lemma EverySendAnswersACallback(a: Alphabet, s: State, n: nat) returns (run: RunKey, cb: Callback)
    requires Reachable(a, s) && n < |s.out.log| && s.out.log[n].SendEvent?
    ensures cb in s.received && run.tenant == cb.key.tenant
    ensures var db, send, m := s.agent.db, s.out.log[n], Q.MessageKey(run, Q.Assistant);
            var user := Q.UserKey(run.tenant, send.recipient);
            && user in db.users && db.users[user].external == cb.sender
            && m in db.messages && db.messages[m].id == send.message && db.messages[m].user == send.recipient
            && run in db.runs
            && var asked := db.runs[run].fingerprint;
               && asked.question == Normal(s.agent.alphabet, cb.content) && asked.user == send.recipient
               && asked.conversation == Some(db.messages[m].conversation) && asked.channel == WECOM
               && asked.knowledgeBases == {} && asked.tenant == cb.key.tenant
  {
    ReachableInv(a, s);
    InvMeans(s);
    run := EverySendIsTheAnswer(s, n);
    cb := s.owner[run];
    Q.ReachableInv(s.agent);
    assert Q.RunOk(s.agent.db, run);
  }

  /** The request a delivery row is for. */
  function RowRun(out: O.State, key: O.DeliveryKey): RunKey
    requires key in out.deliveries
  {
    RunKey(key.tenant, out.deliveries[key].request)
  }

  /** A delivery row is keyed by the completion of the request it is for. */
  lemma RowIsForItsRequest(s: State, k: O.DeliveryKey)
    requires Inv(s) && k in s.out.deliveries
    ensures k.event == CompletionOf(k.tenant, s.out.deliveries[k].request)
  {
    InvMeans(s);
    O.ReachableInv(s.out);
    O.InvMeans(s.out);
    assert O.RowOk(s.out, k);
    var p :| 0 <= p < |s.out.entries| && O.KeyOf(s.out.entries[p]) == k
      && O.SameContent(s.out.deliveries[k], s.out.entries[p]);
    assert CompletionOk(s, s.out.entries[p]);
  }

  /** All completion events of one request agree, so a request has at most one delivery row. */
  lemma OneDeliveryPerRequest(a: Alphabet, s: State, i: nat, j: nat, k: O.DeliveryKey, l: O.DeliveryKey)
    requires Reachable(a, s)
    ensures var out := s.out;
            && (i < |out.entries| && j < |out.entries| && Ran(out.entries[i]) == Ran(out.entries[j]) ==>
                  && out.entries[i].event == out.entries[j].event
                  && out.entries[i].message == out.entries[j].message
                  && out.entries[i].recipient == out.entries[j].recipient
                  && out.entries[i].channel == out.entries[j].channel
                  && out.entries[i].attempt == out.entries[j].attempt == 1)
            && (k in out.deliveries && l in out.deliveries && RowRun(out, k) == RowRun(out, l) ==> k == l)
  {
    ReachableInv(a, s);
    InvMeans(s);
    if i < |s.out.entries| && j < |s.out.entries| {
      assert CompletionOk(s, s.out.entries[i]) && CompletionOk(s, s.out.entries[j]);
    }
    if k in s.out.deliveries && l in s.out.deliveries {
      RowIsForItsRequest(s, k);
      RowIsForItsRequest(s, l);
    }
  }

  /**
   The services never discard what they produced: every published event validates, no worker is ever
   about to acknowledge poison, and an answer the agent returned for a dispatcher's question always
   passes the identity check.
   */
  lemma NothingIsDiscarded(a: Alphabet, s: State, i: nat, j: nat, d: nat, w: nat, r: nat)
    requires Reachable(a, s)
    ensures && (i < |s.requested| ==> ValidRequested(s.requested[i]))
            && (j < |s.out.entries| ==> ValidCompleted(s.out.entries[j]))
            && (d in s.dispatchers ==> !s.dispatchers[d].Rejecting?)
            && (w in s.out.workers ==> !s.out.workers[w].Poisoned?)
            && (d in s.dispatchers && s.dispatchers[d].Asking? && r < |s.agent.returned| ==>
                  var question := s.dispatchers[d].question;
                  var q := s.agent.returned[r].q;
                  var answer := s.agent.returned[r].answer;
                  q == Asked(s.agent.alphabet, question) ==>
                    answer.conversation == question.conversation && answer.message != BLANK)
  {
    ReachableInv(a, s);
    InvMeans(s);
    if i < |s.requested| { assert RequestOk(s, s.requested[i]); }
    if j < |s.out.entries| { assert CompletionOk(s, s.out.entries[j]); }
    if d in s.dispatchers { assert DispatcherOk(s, s.dispatchers[d]); }
    if w in s.out.workers {
      O.ReachableInv(s.out);
    O.InvMeans(s.out);
      assert O.WorkerOk(s.out, s.out.workers[w]) && CompletionOk(s, s.out.entries[s.out.workers[w].i]);
    }
    if r < |s.agent.returned| { ReturnedIdentity(s.agent, r); }
  }

  lemma ReturnedIdentity(agent: Q.System, r: nat)
    requires Q.Reachable(agent) && r < |agent.returned|
    ensures var q, answer := agent.returned[r].q, agent.returned[r].answer;
            answer.message != BLANK && (q.conversation.Some? ==> answer.conversation == q.conversation.value)
  {
    Q.ReachableInv(agent);
    var q := agent.returned[r].q;
    assert Q.ReturnOk(agent.db, agent.returned[r]) && Q.RunOk(agent.db, Q.KeyOf(q));
  }
}
