/**
 The outbound worker: claim a delivery, load the answer, send it, mark it, acknowledge the event.

 Every SQL transaction, every send and every acknowledgement is one step. Any number of workers take
 steps in any order, each may stop between two steps, and an entry that is not acknowledged may be
 handed to any worker again. A run is a list of steps; a step that cannot be taken changes nothing.
 */
module Outbound {
  import opened Wrappers
  import opened Identity

  datatype DeliveryKey = DeliveryKey(tenant: Id, event: Id)

  datatype Status = Pending | Sending | Sent | RetryableFailed

  datatype Delivery = Delivery(
    request: Id, message: Id, recipient: Id, channel: string, status: Status, attempt: nat, external: Option<string>)

  type Deliveries = map<DeliveryKey, Delivery>

  function KeyOf(e: Completed): DeliveryKey {
    DeliveryKey(e.tenant, e.event)
  }

  // ---------------------------------------------------------------------------
  // The statements on outbound_deliveries
  // ---------------------------------------------------------------------------

  /** The row an event finds: its own from an earlier claim, or a new one. */
  function Upserted(ds: Deliveries, e: Completed): Delivery {
    if KeyOf(e) in ds then ds[KeyOf(e)]
    else Delivery(e.request, e.message, e.recipient, e.channel, Pending, 0, None)
  }

  /** A row that is not SENT is taken for one more attempt; a SENT one stays and is not claimed. */
  function Claimed(ds: Deliveries, e: Completed): (Deliveries, bool) {
    var row := Upserted(ds, e);
    if row.status == Sent then (ds[KeyOf(e) := row], false)
    else (ds[KeyOf(e) := row.(status := Sending, attempt := row.attempt + 1)], true)
  }

  function MarkedSent(ds: Deliveries, key: DeliveryKey, external: string): Deliveries {
    if key !in ds then ds
    else ds[key := ds[key].(status := Sent, external := if external == "" then None else Some(external))]
  }

  function MarkedFailed(ds: Deliveries, key: DeliveryKey): Deliveries {
    if key !in ds then ds else ds[key := ds[key].(status := RetryableFailed)]
  }

  // ---------------------------------------------------------------------------
  // The step system
  // ---------------------------------------------------------------------------

  /** Where a worker stands in `processOne` for the stream entry `i`. */
  datatype Worker =
    | Poisoned(i: nat)                    // the entry does not decode; about to acknowledge it
    | Ready(i: nat)                       // about to claim
    | Loading(i: nat)                     // claimed; about to load the answer
    | Posting(i: nat)                     // about to send
    | Marking(i: nat, external: string)   // sent; about to mark the row
    | Failing(i: nat)                     // load or send failed; about to record it
    | Settled(i: nat)                     // about to acknowledge

  /** What has happened, in order: committed claims, successful sends and committed marks. */
  datatype Event =
    | ClaimEvent(key: DeliveryKey)
    | SendEvent(key: DeliveryKey, message: Id, recipient: Id)
    | MarkEvent(key: DeliveryKey)

  datatype State = State(
    entries: seq<Completed>,
    acked: set<nat>,
    deliveries: Deliveries,
    workers: map<nat, Worker>,
    log: seq<Event>)

  datatype Step =
    | Publish(e: Completed)
    | Deliver(w: nat, entry: nat)
    | Claim(w: nat)
    | Load(w: nat, ok: bool)
    | Post(w: nat, ok: bool, external: string)
    | Mark(w: nat)
    | Record(w: nat, ok: bool)
    | Ack(w: nat)
    | Crash(w: nat)

  const Empty := State([], {}, map[], map[], [])

  /** The first, local part of `processOne`: decoding, validation and the channel test. */
  function Admitted(e: Completed, i: nat): Worker {
    if !ValidCompleted(e) then Poisoned(i)
    else if e.channel != WECOM then Settled(i)
    else Ready(i)
  }

  function Do(s: State, step: Step): State {
    match step
    case Publish(e) => s.(entries := s.entries + [e])
    case Deliver(w, i) =>
      if w in s.workers || i >= |s.entries| || i in s.acked then s
      else s.(workers := s.workers[w := Admitted(s.entries[i], i)])
    case Crash(w) => s.(workers := s.workers - {w})
    case _ => if step.w in s.workers && s.workers[step.w].i < |s.entries| then Advance(s, step) else s
  }

  function Advance(s: State, step: Step): State
    requires !step.Publish? && !step.Deliver? && !step.Crash?
    requires step.w in s.workers && s.workers[step.w].i < |s.entries|
  {
    var w := step.w;
    var i := s.workers[w].i;
    var e := s.entries[i];
    var key := KeyOf(e);
    match (step, s.workers[w])
    case (Claim(_), Ready(_)) =>
      var (ds, claimed) := Claimed(s.deliveries, e);
      if claimed then
        s.(deliveries := ds, workers := s.workers[w := Loading(i)], log := s.log + [ClaimEvent(key)])
      else
        s.(deliveries := ds, workers := s.workers[w := Settled(i)])
    case (Load(_, ok), Loading(_)) =>
      s.(workers := s.workers[w := if ok then Posting(i) else Failing(i)])
    case (Post(_, ok, external), Posting(_)) =>
      if ok then
        s.(workers := s.workers[w := Marking(i, external)], log := s.log + [SendEvent(key, e.message, e.recipient)])
      else
        s.(workers := s.workers[w := Failing(i)])
    case (Mark(_), Marking(_, external)) =>
      if key in s.deliveries then
        s.(deliveries := MarkedSent(s.deliveries, key, external),
           workers := s.workers[w := Settled(i)], log := s.log + [MarkEvent(key)])
      else
        s.(workers := s.workers - {w})
    case (Record(_, ok), Failing(_)) =>
      s.(deliveries := if ok then MarkedFailed(s.deliveries, key) else s.deliveries, workers := s.workers - {w})
    case (Ack(_), Settled(_)) => s.(acked := s.acked + {i}, workers := s.workers - {w})
    case (Ack(_), Poisoned(_)) => s.(acked := s.acked + {i}, workers := s.workers - {w})
    case _ => s
  }

  function Exec(s: State, steps: seq<Step>): State
    decreases |steps|
  {
    if steps == [] then s else Exec(Do(s, steps[0]), steps[1..])
  }

  // ---------------------------------------------------------------------------
  // What the history says
  // ---------------------------------------------------------------------------

  function Count(log: seq<Event>, p: Event -> bool): nat {
    if log == [] then 0 else Count(log[..|log| - 1], p) + if p(log[|log| - 1]) then 1 else 0
  }

  function Claims(log: seq<Event>, key: DeliveryKey): nat {
    Count(log, (e: Event) => e == ClaimEvent(key))
  }

  function Sends(log: seq<Event>, key: DeliveryKey): nat {
    Count(log, (e: Event) => e.SendEvent? && e.key == key)
  }

  function Marks(log: seq<Event>, key: DeliveryKey): nat {
    Count(log, (e: Event) => e == MarkEvent(key))
  }

  ghost predicate WasSent(log: seq<Event>, key: DeliveryKey) {
    exists n :: 0 <= n < |log| && log[n].SendEvent? && log[n].key == key
  }

  /** The row of a key was made by some published event of that key. */
  ghost predicate RowFromEntry(s: State, key: DeliveryKey, row: Delivery) {
    exists j :: 0 <= j < |s.entries| && KeyOf(s.entries[j]) == key && SameContent(row, s.entries[j])
  }

  predicate SameContent(row: Delivery, e: Completed) {
    row.request == e.request && row.message == e.message && row.recipient == e.recipient && row.channel == e.channel
  }

  /** A completion of the first schema, for WeCom, whose IDs can be looked up. */
  predicate IsCompletion(e: Completed) {
    && e.kind == "qa.completed" && e.schema == "1.0" && e.channel == "WECOM"
    && IsUuid(e.tenant) && IsUuid(e.event) && IsUuid(e.message) && IsUuid(e.recipient) && e.request != Text("")
  }

  /** A send carried what some published event of its key carries. */
  ghost predicate FromEntry(s: State, key: DeliveryKey, message: Id, recipient: Id) {
    exists j :: 0 <= j < |s.entries|
             && KeyOf(s.entries[j]) == key && s.entries[j].message == message && s.entries[j].recipient == recipient
             && IsCompletion(s.entries[j])
  }

  /** Acknowledging the entry loses nothing: it was no answer for WeCom, or the answer was sent. */
  ghost predicate Discharged(s: State, i: nat)
    requires i < |s.entries|
  {
    !ValidCompleted(s.entries[i]) || s.entries[i].channel != WECOM || WasSent(s.log, KeyOf(s.entries[i]))
  }

  ghost predicate WorkerOk(s: State, worker: Worker) {
    && worker.i < |s.entries|
    && var e := s.entries[worker.i];
       match worker
       case Poisoned(_) => !ValidCompleted(e)
       case Settled(_) => Discharged(s, worker.i)
       case Marking(_, _) => KeyOf(e) in s.deliveries && WasSent(s.log, KeyOf(e))
       case Ready(_) => IsCompletion(e)
       case _ => KeyOf(e) in s.deliveries && IsCompletion(e)
  }

  ghost predicate RowOk(s: State, key: DeliveryKey)
    requires key in s.deliveries
  {
    && (s.deliveries[key].status == Sent ==> WasSent(s.log, key))
    && RowFromEntry(s, key, s.deliveries[key])
  }

  ghost predicate AckedOk(s: State) {
    forall i :: i in s.acked ==> i < |s.entries| && Discharged(s, i)
  }

  ghost predicate AllWorkersOk(s: State) {
    forall w :: w in s.workers ==> WorkerOk(s, s.workers[w])
  }

  ghost predicate RowsOk(s: State) {
    forall key :: key in s.deliveries ==> RowOk(s, key)
  }

  ghost predicate SendsOk(s: State) {
    forall n :: 0 <= n < |s.log| && s.log[n].SendEvent? ==>
      FromEntry(s, s.log[n].key, s.log[n].message, s.log[n].recipient)
  }

  datatype Part = AckedPart | WorkersPart | RowsPart | SendsPart

  ghost predicate PartOk(s: State, part: Part) {
    match part
    case AckedPart => AckedOk(s)
    case WorkersPart => AllWorkersOk(s)
    case RowsPart => RowsOk(s)
    case SendsPart => SendsOk(s)
  }

  /** Holds in every reachable state, whatever the workers do. */
  ghost predicate Inv(s: State) {
    forall part :: PartOk(s, part)
  }

  lemma InvMeans(s: State)
    requires Inv(s)
    ensures AckedOk(s) && AllWorkersOk(s) && RowsOk(s) && SendsOk(s)
  {
    assert PartOk(s, AckedPart) && PartOk(s, WorkersPart) && PartOk(s, RowsPart) && PartOk(s, SendsPart);
  }

  lemma MeansInv(s: State)
    requires AckedOk(s) && AllWorkersOk(s) && RowsOk(s) && SendsOk(s)
    ensures Inv(s)
  {
  }

  lemma WorkerIn(s: State, w: nat)
    requires Inv(s) && w in s.workers
    ensures WorkerOk(s, s.workers[w])
  {
    assert PartOk(s, WorkersPart);
  }

  lemma RowIn(s: State, key: DeliveryKey)
    requires Inv(s) && key in s.deliveries
    ensures RowOk(s, key)
  {
    assert PartOk(s, RowsPart);
  }

  /** The stream and the history only grow. */
  ghost predicate Grows(s: State, t: State) {
    s.entries <= t.entries && s.log <= t.log
  }

  lemma SentStays(s: State, t: State, key: DeliveryKey)
    requires Grows(s, t) && WasSent(s.log, key)
    ensures WasSent(t.log, key)
  {
    var n :| 0 <= n < |s.log| && s.log[n].SendEvent? && s.log[n].key == key;
    assert t.log[n] == s.log[n];
  }

  lemma EntryStays(s: State, t: State, key: DeliveryKey, message: Id, recipient: Id)
    requires Grows(s, t) && FromEntry(s, key, message, recipient)
    ensures FromEntry(t, key, message, recipient)
  {
    var j :| 0 <= j < |s.entries|
             && KeyOf(s.entries[j]) == key && s.entries[j].message == message && s.entries[j].recipient == recipient;
    assert t.entries[j] == s.entries[j];
  }

  lemma DischargeStays(s: State, t: State, i: nat)
    requires Grows(s, t) && i < |s.entries| && Discharged(s, i)
    ensures Discharged(t, i)
  {
    assert t.entries[i] == s.entries[i];
    if WasSent(s.log, KeyOf(s.entries[i])) { SentStays(s, t, KeyOf(s.entries[i])); }
  }

  /** A worker whose entry is still what it was, over rows that are still there, stands as it stood. */
  lemma WorkerStays(s: State, t: State, worker: Worker)
    requires Grows(s, t) && WorkerOk(s, worker) && s.deliveries.Keys <= t.deliveries.Keys
    ensures WorkerOk(t, worker)
  {
    assert t.entries[worker.i] == s.entries[worker.i];
    if worker.Settled? { DischargeStays(s, t, worker.i); }
    if worker.Marking? { SentStays(s, t, KeyOf(s.entries[worker.i])); }
  }

  lemma RowStays(s: State, t: State, key: DeliveryKey)
    requires Grows(s, t) && key in s.deliveries && key in t.deliveries && RowOk(s, key)
    requires t.deliveries[key] == s.deliveries[key].(
               status := t.deliveries[key].status, attempt := t.deliveries[key].attempt,
               external := t.deliveries[key].external)
    requires t.deliveries[key].status == Sent ==> s.deliveries[key].status == Sent || WasSent(t.log, key)
    ensures RowOk(t, key)
  {
    if s.deliveries[key].status == Sent { SentStays(s, t, key); }
    var j :| 0 <= j < |s.entries| && KeyOf(s.entries[j]) == key && SameContent(s.deliveries[key], s.entries[j]);
    assert KeyOf(t.entries[j]) == key && SameContent(t.deliveries[key], t.entries[j]);
  }

  /** What a step of worker `w` on entry `i` still has to establish, once its frame is known. */
  lemma FramedStepKeepsInv(s: State, t: State, w: nat, i: nat)
    requires Inv(s) && Grows(s, t) && i < |s.entries| && |t.log| <= |s.log| + 1
    requires var key := KeyOf(s.entries[i]);
             && s.deliveries.Keys <= t.deliveries.Keys <= s.deliveries.Keys + {key}
             && (forall k :: k in s.deliveries && k != key ==> t.deliveries[k] == s.deliveries[k])
             && (key in t.deliveries ==> RowOk(t, key))
    requires forall v :: v in t.workers && v != w ==> v in s.workers && t.workers[v] == s.workers[v]
    requires w in t.workers ==> WorkerOk(t, t.workers[w])
    requires t.acked <= s.acked + {i} && (t.acked == s.acked || Discharged(s, i))
    requires |t.log| > |s.log| && t.log[|s.log|].SendEvent? ==>
               FromEntry(t, t.log[|s.log|].key, t.log[|s.log|].message, t.log[|s.log|].recipient)
    ensures Inv(t)
  {
    var key := KeyOf(s.entries[i]);
    InvMeans(s);
    forall k | k in t.acked ensures k < |t.entries| && Discharged(t, k) { DischargeStays(s, t, k); }
    forall v | v in t.workers ensures WorkerOk(t, t.workers[v]) {
      if v != w { WorkerStays(s, t, s.workers[v]); }
    }
    forall k | k in t.deliveries ensures RowOk(t, k) {
      if k != key { RowStays(s, t, k); }
    }
    forall n | 0 <= n < |t.log| && t.log[n].SendEvent?
      ensures FromEntry(t, t.log[n].key, t.log[n].message, t.log[n].recipient)
    {
      if n < |s.log| {
        assert t.log[n] == s.log[n];
        EntryStays(s, t, s.log[n].key, s.log[n].message, s.log[n].recipient);
      }
    }
    MeansInv(t);
  }

  lemma ClaimKeepsInv(s: State, w: nat, i: nat)
    requires Inv(s) && w in s.workers && s.workers[w] == Ready(i)
    ensures i < |s.entries| && Inv(Advance(s, Claim(w)))
  {
    WorkerIn(s, w);
    var t := Advance(s, Claim(w));
    var key := KeyOf(s.entries[i]);
    if !Claimed(s.deliveries, s.entries[i]).1 { RowIn(s, key); }
    if key in s.deliveries {
      RowIn(s, key);
      RowStays(s, t, key);
    } else {
      assert KeyOf(t.entries[i]) == key && SameContent(t.deliveries[key], t.entries[i]);
    }
    FramedStepKeepsInv(s, t, w, i);
  }

  lemma PostKeepsInv(s: State, w: nat, i: nat, external: string)
    requires Inv(s) && w in s.workers && s.workers[w] == Posting(i)
    ensures i < |s.entries| && Inv(Advance(s, Post(w, true, external)))
  {
    WorkerIn(s, w);
    var e := s.entries[i];
    var t := Advance(s, Post(w, true, external));
    RowIn(s, KeyOf(e));
    RowStays(s, t, KeyOf(e));
    assert t.entries[i] == e && t.log[|s.log|] == SendEvent(KeyOf(e), e.message, e.recipient);
    FramedStepKeepsInv(s, t, w, i);
  }

  lemma MarkKeepsInv(s: State, w: nat, i: nat, external: string)
    requires Inv(s) && w in s.workers && s.workers[w] == Marking(i, external)
    ensures i < |s.entries| && Inv(Advance(s, Mark(w)))
  {
    WorkerIn(s, w);
    var t := Advance(s, Mark(w));
    SentStays(s, t, KeyOf(s.entries[i]));
    RowIn(s, KeyOf(s.entries[i]));
    RowStays(s, t, KeyOf(s.entries[i]));
    FramedStepKeepsInv(s, t, w, i);
  }

  lemma LeaveKeepsInv(s: State, step: Step, w: nat, i: nat)
    requires Inv(s) && w in s.workers && s.workers[w].i == i < |s.entries|
    requires (step.Load? || step.Record? || step.Ack? || (step.Post? && !step.ok)) && step.w == w
    ensures Inv(Advance(s, step))
  {
    WorkerIn(s, w);
    var t := Advance(s, step);
    if KeyOf(s.entries[i]) in s.deliveries {
      RowIn(s, KeyOf(s.entries[i]));
      RowStays(s, t, KeyOf(s.entries[i]));
    }
    if t != s { FramedStepKeepsInv(s, t, w, i); }
  }

  lemma PublishKeepsInv(s: State, e: Completed)
    requires Inv(s)
    ensures Inv(Do(s, Publish(e)))
  {
    var t := Do(s, Publish(e));
    InvMeans(s);
    forall i | i in t.acked ensures i < |t.entries| && Discharged(t, i) { DischargeStays(s, t, i); }
    forall n | 0 <= n < |t.log| && t.log[n].SendEvent?
      ensures FromEntry(t, t.log[n].key, t.log[n].message, t.log[n].recipient)
    {
      EntryStays(s, t, s.log[n].key, s.log[n].message, s.log[n].recipient);
    }
    forall v | v in t.workers ensures WorkerOk(t, t.workers[v]) { WorkerStays(s, t, s.workers[v]); }
    forall k | k in t.deliveries ensures RowOk(t, k) { RowStays(s, t, k); }
    MeansInv(t);
  }

  lemma DeliverKeepsInv(s: State, w: nat, i: nat)
    requires Inv(s)
    ensures Inv(Do(s, Deliver(w, i)))
  {
    var t := Do(s, Deliver(w, i));
    if t != s {
      InvMeans(s);
      forall v | v in t.workers ensures WorkerOk(t, t.workers[v]) {
        if v != w { WorkerStays(s, t, s.workers[v]); }
      }
      forall k | k in t.deliveries ensures RowOk(t, k) { RowStays(s, t, k); }
      MeansInv(t);
    }
  }

  lemma CrashKeepsInv(s: State, w: nat)
    requires Inv(s)
    ensures Inv(Do(s, Crash(w)))
  {
    var t := Do(s, Crash(w));
    InvMeans(s);
    forall v | v in t.workers ensures WorkerOk(t, t.workers[v]) { WorkerStays(s, t, s.workers[v]); }
    forall k | k in t.deliveries ensures RowOk(t, k) { RowStays(s, t, k); }
    MeansInv(t);
  }

  /** No step of any worker, in any order, breaks the invariant. */
  lemma StepKeepsInv(s: State, step: Step)
    requires Inv(s)
    ensures Inv(Do(s, step))
  {
    match step
    case Publish(e) => PublishKeepsInv(s, e);
    case Deliver(w, i) => DeliverKeepsInv(s, w, i);
    case Crash(w) => CrashKeepsInv(s, w);
    case _ => if step.w in s.workers && s.workers[step.w].i < |s.entries| { AdvanceKeepsInv(s, step); }
  }

  lemma AdvanceKeepsInv(s: State, step: Step)
    requires Inv(s) && !step.Publish? && !step.Deliver? && !step.Crash?
    requires step.w in s.workers && s.workers[step.w].i < |s.entries|
    ensures Inv(Advance(s, step))
  {
    var w := step.w;
    var worker := s.workers[w];
    if step.Claim? && worker.Ready? {
      ClaimKeepsInv(s, w, worker.i);
    } else if step.Post? && worker.Posting? && step.ok {
      PostKeepsInv(s, w, worker.i, step.external);
    } else if step.Mark? && worker.Marking? {
      MarkKeepsInv(s, w, worker.i, worker.external);
    } else if step.Load? || step.Record? || step.Ack? || (step.Post? && !step.ok) {
      LeaveKeepsInv(s, step, w, worker.i);
    }
  }

  // ---------------------------------------------------------------------------
  // Attempts and duplicate sends
  // ---------------------------------------------------------------------------

  /** The row's attempt counter is the number of claims that committed. Holds under any interleaving. */
  ghost predicate AttemptsCounted(s: State) {
    forall key :: AttemptCounted(s, key)
  }

  ghost predicate AttemptCounted(s: State, key: DeliveryKey) {
    Claims(s.log, key) == if key in s.deliveries then s.deliveries[key].attempt else 0
  }

  lemma StepKeepsAttempts(s: State, step: Step)
    requires AttemptsCounted(s)
    ensures AttemptsCounted(Do(s, step))
  {
    forall key ensures AttemptCounted(Do(s, step), key) {
      assert AttemptCounted(s, key);
      StepKeepsAttempt(s, step, key);
    }
  }

  lemma OneMoreClaim(log: seq<Event>, event: Event, key: DeliveryKey)
    ensures Claims(log + [event], key) == Claims(log, key) + if event == ClaimEvent(key) then 1 else 0
  {
    assert (log + [event])[..|log|] == log;
  }

  lemma StepKeepsAttempt(s: State, step: Step, key: DeliveryKey)
    requires AttemptCounted(s, key)
    ensures AttemptCounted(Do(s, step), key)
  {
    var t := Do(s, step);
    if |t.log| > |s.log| {
      assert t.log == s.log + [t.log[|s.log|]];
      OneMoreClaim(s.log, t.log[|s.log|], key);
    }
  }

  /** At most one worker is busy with events of one key. */
  ghost predicate Exclusive(s: State) {
    forall v, w :: v in s.workers && w in s.workers && v != w
                   && s.workers[v].i < |s.entries| && s.workers[w].i < |s.entries| ==>
                     KeyOf(s.entries[s.workers[v].i]) != KeyOf(s.entries[s.workers[w].i])
  }

  /** A run all of whose states are exclusive. */
  ghost predicate ExclusiveRun(s: State, steps: seq<Step>)
    decreases |steps|
  {
    Exclusive(s) && (steps == [] || ExclusiveRun(Do(s, steps[0]), steps[1..]))
  }

  datatype Tally = Tally(lost: nat, pending: bool)

  /**
   The successful sends of a key that no mark answered: `lost` ones were overtaken by the next send,
   and `pending` says whether the last one is still unanswered.
   */
  function TallyOf(log: seq<Event>, key: DeliveryKey): Tally {
    if log == [] then Tally(0, false)
    else
      var t := TallyOf(log[..|log| - 1], key);
      match log[|log| - 1]
      case ClaimEvent(_) => t
      case SendEvent(k, _, _) => if k != key then t else Tally(t.lost + if t.pending then 1 else 0, true)
      case MarkEvent(k) => if k != key then t else Tally(t.lost, false)
  }

  function Unmarked(log: seq<Event>, key: DeliveryKey): nat {
    TallyOf(log, key).lost + if TallyOf(log, key).pending then 1 else 0
  }

  ghost predicate KeyOk(s: State, key: DeliveryKey) {
    && Marks(s.log, key) == (if key in s.deliveries && s.deliveries[key].status == Sent then 1 else 0)
    && Sends(s.log, key) == Marks(s.log, key) + Unmarked(s.log, key)
  }

  predicate Busy(worker: Worker) {
    worker.Loading? || worker.Posting? || worker.Marking? || worker.Failing?
  }

  ghost predicate BusyOk(s: State, worker: Worker) {
    && worker.i < |s.entries|
    && (Busy(worker) ==>
          && KeyOf(s.entries[worker.i]) in s.deliveries
          && s.deliveries[KeyOf(s.entries[worker.i])].status == Sending)
    && (worker.Marking? ==> TallyOf(s.log, KeyOf(s.entries[worker.i])).pending)
  }

  ghost predicate ExclusiveInv(s: State) {
    && (forall key :: KeyOk(s, key))
    && (forall w :: w in s.workers ==> BusyOk(s, s.workers[w]))
  }

  /** A step by `w` touches the row and the history of its own key only. */
  lemma StepTouchesOneKey(s: State, step: Step, key: DeliveryKey)
    requires step.Publish? || step.Deliver? || step.Crash? || step.w !in s.workers
             || s.workers[step.w].i >= |s.entries| || KeyOf(s.entries[s.workers[step.w].i]) != key
    ensures var t := Do(s, step);
            && (key in t.deliveries <==> key in s.deliveries)
            && (key in s.deliveries ==> t.deliveries[key] == s.deliveries[key])
            && Marks(t.log, key) == Marks(s.log, key) && Sends(t.log, key) == Sends(s.log, key)
            && TallyOf(t.log, key) == TallyOf(s.log, key)
  {
    var t := Do(s, step);
    if |t.log| > |s.log| { assert t.log[..|s.log|] == s.log; }
  }

  lemma OneMoreEvent(log: seq<Event>, event: Event, key: DeliveryKey)
    ensures Marks(log + [event], key) == Marks(log, key) + if event == MarkEvent(key) then 1 else 0
    ensures Sends(log + [event], key) == Sends(log, key) + if event.SendEvent? && event.key == key then 1 else 0
    ensures var t, u := TallyOf(log, key), TallyOf(log + [event], key);
            u == if event == MarkEvent(key) then Tally(t.lost, false)
                 else if event.SendEvent? && event.key == key then Tally(t.lost + if t.pending then 1 else 0, true)
                 else t
  {
    assert (log + [event])[..|log|] == log;
  }

  /** A key's history and row after one more event: a mark answers a pending send and makes the row SENT. */
  lemma OneMoreKeepsKeyOk(s: State, t: State, event: Event, key: DeliveryKey)
    requires KeyOk(s, key) && t.log == s.log + [event] && key in t.deliveries
    requires match event
             case ClaimEvent(_) => t.deliveries[key].status != Sent && Marks(s.log, key) == 0
             case SendEvent(_, _, _) => key in s.deliveries && t.deliveries[key].status == s.deliveries[key].status
             case MarkEvent(k) => k == key && t.deliveries[key].status == Sent && Marks(s.log, key) == 0
                                  && TallyOf(s.log, key).pending
    ensures KeyOk(t, key)
  {
    OneMoreEvent(s.log, event, key);
  }

  /** A step of a worker on a row of its own. */
  lemma OwnStepKeepsKeyOk(s: State, step: Step, w: nat, key: DeliveryKey)
    requires KeyOk(s, key) && w in s.workers && BusyOk(s, s.workers[w]) && key == KeyOf(s.entries[s.workers[w].i])
    requires !step.Publish? && !step.Deliver? && !step.Crash? && step.w == w
    ensures KeyOk(Advance(s, step), key)
  {
    var t := Advance(s, step);
    var e := s.entries[s.workers[w].i];
    if t.log != s.log {
      var event := match step
        case Claim(_) => ClaimEvent(key)
        case Mark(_) => MarkEvent(key)
        case _ => SendEvent(key, e.message, e.recipient);
      assert t.log == s.log + [event];
      OneMoreKeepsKeyOk(s, t, event, key);
    }
  }

  lemma StepKeepsKeyOk(s: State, step: Step, key: DeliveryKey)
    requires ExclusiveInv(s) && Exclusive(s)
    ensures KeyOk(Do(s, step), key)
  {
    assert KeyOk(s, key);
    if step.Publish? || step.Deliver? || step.Crash? || step.w !in s.workers
       || s.workers[step.w].i >= |s.entries| || KeyOf(s.entries[s.workers[step.w].i]) != key {
      StepTouchesOneKey(s, step, key);
    } else {
      OwnStepKeepsKeyOk(s, step, step.w, key);
    }
  }

  lemma OtherStaysBusyOk(s: State, step: Step, v: nat)
    requires ExclusiveInv(s) && Exclusive(s) && v in s.workers && v in Do(s, step).workers
    requires step.Publish? || step.w != v
    ensures BusyOk(Do(s, step), Do(s, step).workers[v])
  {
    assert BusyOk(s, s.workers[v]);
    StepTouchesOneKey(s, step, KeyOf(s.entries[s.workers[v].i]));
  }

  lemma ActorStaysBusyOk(s: State, step: Step)
    requires !step.Publish? && step.w in s.workers && step.w in Do(s, step).workers && BusyOk(s, s.workers[step.w])
    ensures BusyOk(Do(s, step), Do(s, step).workers[step.w])
  {
    if step.Post? { SenderStaysBusyOk(s, step); } else { OthersStayBusyOk(s, step); }
  }

  lemma SenderStaysBusyOk(s: State, step: Step)
    requires step.Post? && step.w in s.workers && step.w in Do(s, step).workers && BusyOk(s, s.workers[step.w])
    ensures BusyOk(Do(s, step), Do(s, step).workers[step.w])
  {
    var e := s.entries[s.workers[step.w].i];
    OneMoreEvent(s.log, SendEvent(KeyOf(e), e.message, e.recipient), KeyOf(e));
  }

  lemma OthersStayBusyOk(s: State, step: Step)
    requires !step.Publish? && !step.Post?
    requires step.w in s.workers && step.w in Do(s, step).workers && BusyOk(s, s.workers[step.w])
    ensures BusyOk(Do(s, step), Do(s, step).workers[step.w])
  {
  }

  lemma StepKeepsBusyOk(s: State, step: Step, v: nat)
    requires ExclusiveInv(s) && Exclusive(s) && v in Do(s, step).workers
    ensures BusyOk(Do(s, step), Do(s, step).workers[v])
  {
    if v in s.workers {
      if step.Publish? || step.w != v { OtherStaysBusyOk(s, step, v); } else { ActorStaysBusyOk(s, step); }
    }
  }

  lemma StepKeepsExclusiveInv(s: State, step: Step)
    requires ExclusiveInv(s) && Exclusive(s)
    ensures ExclusiveInv(Do(s, step))
  {
    forall key ensures KeyOk(Do(s, step), key) { StepKeepsKeyOk(s, step, key); }
    forall w | w in Do(s, step).workers
      ensures BusyOk(Do(s, step), Do(s, step).workers[w])
    {
      StepKeepsBusyOk(s, step, w);
    }
  }

  // ---------------------------------------------------------------------------
  // Main results, over whole runs
  // ---------------------------------------------------------------------------

  lemma {:induction false} RunKeepsInv(s: State, steps: seq<Step>)
    requires Inv(s) && AttemptsCounted(s)
    ensures Inv(Exec(s, steps)) && AttemptsCounted(Exec(s, steps))
    decreases |steps|
  {
    if steps != [] {
      StepKeepsInv(s, steps[0]);
      StepKeepsAttempts(s, steps[0]);
      RunKeepsInv(Do(s, steps[0]), steps[1..]);
    }
  }

  ghost predicate Reachable(s: State) {
    exists steps :: Exec(Empty, steps) == s
  }

  lemma ReachableInv(s: State)
    requires Reachable(s)
    ensures Inv(s) && AttemptsCounted(s)
  {
    var steps :| Exec(Empty, steps) == s;
    RunKeepsInv(Empty, steps);
  }

  lemma {:induction false} ExecOneMore(s: State, steps: seq<Step>, step: Step)
    ensures Exec(s, steps + [step]) == Do(Exec(s, steps), step)
    decreases |steps|
  {
    if steps == [] {
      assert Exec(Do(s, step), []) == Do(s, step);
    } else {
      assert (steps + [step])[1..] == steps[1..] + [step];
      ExecOneMore(Do(s, steps[0]), steps[1..], step);
    }
  }

  lemma ReachableStep(s: State, step: Step)
    requires Reachable(s)
    ensures Reachable(Do(s, step))
  {
    var steps :| Exec(Empty, steps) == s;
    ExecOneMore(Empty, steps, step);
  }

  /**
   Under any interleaving: an acknowledged answer for WeCom was sent, SENT is only ever claimed of an
   answer that was sent, and every row's attempt counter is its number of claims.
   */
  lemma AcknowledgedMeansSent(steps: seq<Step>, i: nat, n: nat, key: DeliveryKey)
    ensures var s := Exec(Empty, steps);
            && (i < |s.entries| && i in s.acked && IsCompletion(s.entries[i]) ==> WasSent(s.log, KeyOf(s.entries[i])))
            && (n < |s.log| && s.log[n].SendEvent? ==> FromEntry(s, s.log[n].key, s.log[n].message, s.log[n].recipient))
            && (key in s.deliveries && s.deliveries[key].status == Sent ==> WasSent(s.log, key))
            && (key in s.deliveries ==> s.deliveries[key].attempt == Claims(s.log, key))
  {
    RunKeepsInv(Empty, steps);
    var s := Exec(Empty, steps);
    InvMeans(s);
    assert AttemptCounted(s, key);
  }

  lemma {:induction false} ExclusiveRunKeepsInv(s: State, steps: seq<Step>)
    requires ExclusiveInv(s) && ExclusiveRun(s, steps)
    ensures ExclusiveInv(Exec(s, steps)) && Exclusive(Exec(s, steps))
    decreases |steps|
  {
    if steps != [] {
      StepKeepsExclusiveInv(s, steps[0]);
      ExclusiveRunKeepsInv(Do(s, steps[0]), steps[1..]);
    }
  }

  /** With one worker per event, an answer is sent at most once beyond the sends whose mark was lost. */
  lemma DuplicateSendsAreBounded(steps: seq<Step>, key: DeliveryKey)
    requires ExclusiveRun(Empty, steps)
    ensures Marks(Exec(Empty, steps).log, key) <= 1
    ensures Sends(Exec(Empty, steps).log, key) <= 1 + Unmarked(Exec(Empty, steps).log, key)
  {
    ExclusiveRunKeepsInv(Empty, steps);
    assert KeyOk(Exec(Empty, steps), key);
  }

  lemma SentSurvivesStep(s: State, step: Step, key: DeliveryKey)
    requires ExclusiveInv(s) && key in s.deliveries && s.deliveries[key].status == Sent
    ensures var t := Do(s, step);
            key in t.deliveries && t.deliveries[key] == s.deliveries[key] && Sends(t.log, key) == Sends(s.log, key)
  {
    if step.Publish? || step.Deliver? || step.Crash? || step.w !in s.workers
       || s.workers[step.w].i >= |s.entries| || KeyOf(s.entries[s.workers[step.w].i]) != key {
      StepTouchesOneKey(s, step, key);
    } else {
      assert BusyOk(s, s.workers[step.w]);
    }
  }

  /** With one worker per event, SENT is final and nothing is sent after it. */
  lemma {:induction false} SentIsFinal(s: State, steps: seq<Step>, key: DeliveryKey)
    requires ExclusiveInv(s) && ExclusiveRun(s, steps) && key in s.deliveries && s.deliveries[key].status == Sent
    ensures var t := Exec(s, steps);
            key in t.deliveries && t.deliveries[key] == s.deliveries[key] && Sends(t.log, key) == Sends(s.log, key)
    decreases |steps|
  {
    if steps != [] {
      SentSurvivesStep(s, steps[0], key);
      StepKeepsExclusiveInv(s, steps[0]);
      SentIsFinal(Do(s, steps[0]), steps[1..], key);
    }
  }

  // ---------------------------------------------------------------------------
  // Sends and claims, whatever the workers do
  // ---------------------------------------------------------------------------

  /** A worker of the key that has claimed a delivery and not yet sent it. */
  predicate MaySend(s: State, w: nat, key: DeliveryKey) {
    WorksOn(s, w, key) && (s.workers[w].Loading? || s.workers[w].Posting?)
  }

  function Senders(s: State, key: DeliveryKey): set<nat> {
    set w | w in s.workers && MaySend(s, w, key)
  }

  /** Every send, done or still to come, goes back to a claim of its own. */
  ghost predicate SendsClaimed(s: State, key: DeliveryKey) {
    Sends(s.log, key) + |Senders(s, key)| <= Claims(s.log, key)
  }

  lemma OthersPend(s: State, step: Step, w: nat, key: DeliveryKey)
    requires WorkersOk(s) && (step.Publish? || step.w != w)
    ensures MaySend(Do(s, step), w, key) <==> MaySend(s, w, key)
  {
  }

  /** The acting worker starts to pend with a claim only, and a send ends its pending. */
  lemma ActorPends(s: State, step: Step, key: DeliveryKey)
    requires WorkersOk(s) && !step.Publish?
    ensures var w, t := step.w, Do(s, step);
            && (MaySend(t, w, key) && !MaySend(s, w, key) ==> Claims(t.log, key) == Claims(s.log, key) + 1)
            && (Sends(t.log, key) != Sends(s.log, key) ==>
                  Sends(t.log, key) == Sends(s.log, key) + 1 && MaySend(s, w, key) && !MaySend(t, w, key))
            && Claims(s.log, key) <= Claims(t.log, key)
  {
    SendsExactly(s, step, key);
    var t := Do(s, step);
    if |t.log| > |s.log| {
      assert t.log == s.log + [t.log[|s.log|]];
      OneMoreClaim(s.log, t.log[|s.log|], key);
    }
  }

  /** At most the worker `w` is in one set and not in the other. */
  lemma AlmostSame(a: set<nat>, b: set<nat>, w: nat)
    requires forall v :: v != w ==> (v in a <==> v in b)
    ensures |b| == |a| + (if w in b then 1 else 0) - (if w in a then 1 else 0)
  {
    var rest := a - {w};
    assert a == if w in a then rest + {w} else rest;
    assert b == if w in b then rest + {w} else rest;
  }

  lemma StepKeepsSendsClaimed(s: State, step: Step, key: DeliveryKey)
    requires WorkersOk(s) && SendsClaimed(s, key)
    ensures SendsClaimed(Do(s, step), key)
  {
    var t := Do(s, step);
    forall v | step.Publish? || v != step.w ensures v in Senders(t, key) <==> v in Senders(s, key) {
      OthersPend(s, step, v, key);
    }
    if step.Publish? {
      assert Senders(t, key) == Senders(s, key);
    } else {
      AlmostSame(Senders(s, key), Senders(t, key), step.w);
      ActorPends(s, step, key);
    }
  }

  lemma {:induction false} RunKeepsSendsClaimed(s: State, steps: seq<Step>, key: DeliveryKey)
    requires WorkersOk(s) && SendsClaimed(s, key)
    ensures SendsClaimed(Exec(s, steps), key)
    decreases |steps|
  {
    if steps != [] {
      StepKeepsWorkersOk(s, steps[0]);
      StepKeepsSendsClaimed(s, steps[0], key);
      RunKeepsSendsClaimed(Do(s, steps[0]), steps[1..], key);
    }
  }

  /** With any number of workers an answer is sent at most as often as its row was claimed: its `attempt`. */
  lemma SendsAreClaimed(steps: seq<Step>, key: DeliveryKey)
    ensures var s := Exec(Empty, steps);
            Sends(s.log, key) <= Claims(s.log, key) == if key in s.deliveries then s.deliveries[key].attempt else 0
  {
    RunKeepsSendsClaimed(Empty, steps, key);
    RunKeepsInv(Empty, steps);
    assert AttemptCounted(Exec(Empty, steps), key);
  }

  // ---------------------------------------------------------------------------
  // Exactly when SENT is final
  // ---------------------------------------------------------------------------

  predicate IsSent(s: State, key: DeliveryKey) {
    key in s.deliveries && s.deliveries[key].status == Sent
  }

  /** Worker `w` is busy with an event of the key. */
  predicate WorksOn(s: State, w: nat, key: DeliveryKey) {
    w in s.workers && s.workers[w].i < |s.entries| && KeyOf(s.entries[s.workers[w].i]) == key
  }

  function External(external: string): Option<string> {
    if external == "" then None else Some(external)
  }

  /** The two statements without a guard: a failure is recorded, or another message ID is. */
  predicate Overwrites(s: State, step: Step, key: DeliveryKey)
    requires key in s.deliveries
  {
    match step
    case Record(w, ok) => ok && WorksOn(s, w, key) && s.workers[w].Failing?
    case Mark(w) =>
      WorksOn(s, w, key) && s.workers[w].Marking? && External(s.workers[w].external) != s.deliveries[key].external
    case _ => false
  }

  predicate SendsAgain(s: State, step: Step, key: DeliveryKey) {
    match step
    case Post(w, ok, _) => ok && WorksOn(s, w, key) && s.workers[w].Posting?
    case _ => false
  }

  /** One step changes a SENT row exactly if it is one of the two. */
  lemma RowStaysExactly(s: State, step: Step, key: DeliveryKey)
    requires IsSent(s, key)
    ensures key in Do(s, step).deliveries
    ensures Do(s, step).deliveries[key] == s.deliveries[key] <==> !Overwrites(s, step, key)
  {
  }

  lemma SendsExactly(s: State, step: Step, key: DeliveryKey)
    ensures Sends(Do(s, step).log, key) == Sends(s.log, key) + if SendsAgain(s, step, key) then 1 else 0
  {
    var t := Do(s, step);
    if |t.log| > |s.log| {
      assert t.log == s.log + [t.log[|s.log|]];
      OneMoreEvent(s.log, t.log[|s.log|], key);
    }
  }

  /** A worker of the key can still do harm: it may send, or record a failure, or another message ID. */
  predicate Harmful(s: State, w: nat, key: DeliveryKey)
    requires key in s.deliveries
  {
    && WorksOn(s, w, key)
    && match s.workers[w]
       case Loading(_) => true
       case Posting(_) => true
       case Failing(_) => true
       case Marking(_, external) => External(external) != s.deliveries[key].external
       case _ => false
  }

  ghost predicate NoneHarmful(s: State, key: DeliveryKey)
    requires key in s.deliveries
  {
    forall w :: !Harmful(s, w, key)
  }

  /** Whatever the workers do from here on, the row stays and nothing is sent for its key. */
  ghost predicate Final(s: State, key: DeliveryKey)
    requires key in s.deliveries
  {
    forall steps :: Untouched(s, Exec(s, steps), key)
  }

  ghost predicate Untouched(s: State, t: State, key: DeliveryKey)
    requires key in s.deliveries
  {
    key in t.deliveries && t.deliveries[key] == s.deliveries[key] && Sends(t.log, key) == Sends(s.log, key)
  }

  /** Where a worker stands after a step of its own. */
  lemma ActorStaysHarmless(s: State, step: Step, key: DeliveryKey, w: nat)
    requires IsSent(s, key) && WorksOn(s, w, key) && !Harmful(s, w, key)
    requires !step.Publish? && step.w == w && Untouched(s, Do(s, step), key)
    ensures !Harmful(Do(s, step), w, key)
  {
  }

  lemma OthersStayHarmless(s: State, step: Step, key: DeliveryKey, w: nat)
    requires key in s.deliveries && Untouched(s, Do(s, step), key) && (step.Publish? || step.w != w || w !in s.workers)
    requires w in s.workers ==> s.workers[w].i < |s.entries|
    requires !Harmful(s, w, key)
    ensures !Harmful(Do(s, step), w, key)
  {
  }

  /** Every worker works on an entry that is there. */
  ghost predicate WorkersOk(s: State) {
    forall w :: w in s.workers ==> s.workers[w].i < |s.entries|
  }

  lemma StepKeepsHarmless(s: State, step: Step, key: DeliveryKey)
    requires IsSent(s, key) && NoneHarmful(s, key) && WorkersOk(s)
    ensures Untouched(s, Do(s, step), key) && NoneHarmful(Do(s, step), key) && WorkersOk(Do(s, step))
  {
    if !step.Publish? { assert !Harmful(s, step.w, key); }
    RowStaysExactly(s, step, key);
    SendsExactly(s, step, key);
    forall w ensures !Harmful(Do(s, step), w, key) {
      assert !Harmful(s, w, key);
      if step.Publish? || step.w != w || w !in s.workers || !WorksOn(s, w, key) {
        HarmlessElsewhere(s, step, key, w);
      } else {
        ActorStaysHarmless(s, step, key, w);
      }
    }
    StepKeepsWorkersOk(s, step);
  }

  lemma HarmlessElsewhere(s: State, step: Step, key: DeliveryKey, w: nat)
    requires key in s.deliveries && Untouched(s, Do(s, step), key) && WorkersOk(s) && !Harmful(s, w, key)
    requires step.Publish? || step.w != w || w !in s.workers || !WorksOn(s, w, key)
    ensures !Harmful(Do(s, step), w, key)
  {
    if step.Publish? || step.w != w || w !in s.workers { OthersStayHarmless(s, step, key, w); }
  }

  lemma StepKeepsWorkersOk(s: State, step: Step)
    requires WorkersOk(s)
    ensures WorkersOk(Do(s, step))
  {
  }

  lemma {:induction false} HarmlessIsFinal(s: State, steps: seq<Step>, key: DeliveryKey)
    requires IsSent(s, key) && NoneHarmful(s, key) && WorkersOk(s)
    ensures Untouched(s, Exec(s, steps), key)
    decreases |steps|
  {
    if steps != [] {
      StepKeepsHarmless(s, steps[0], key);
      HarmlessIsFinal(Do(s, steps[0]), steps[1..], key);
    }
  }

  /** What a harmful worker can do. */
  function Harm(worker: Worker, w: nat): seq<Step> {
    match worker
    case Loading(_) => [Load(w, true), Post(w, true, "")]
    case Posting(_) => [Post(w, true, "")]
    case Failing(_) => [Record(w, true)]
    case _ => [Mark(w)]
  }

  lemma ExecTwo(s: State, first: Step, second: Step)
    ensures Exec(s, [first]) == Do(s, first) && Exec(s, [first, second]) == Do(Do(s, first), second)
  {
    ExecOneMore(s, [], first);
    ExecOneMore(s, [first], second);
    assert [] + [first] == [first] && [first] + [second] == [first, second];
  }

  lemma HarmIsDone(s: State, w: nat, key: DeliveryKey)
    requires IsSent(s, key) && Harmful(s, w, key)
    ensures !Untouched(s, Exec(s, Harm(s.workers[w], w)), key)
  {
    match s.workers[w]
    case Loading(i) =>
      var t := Do(s, Load(w, true));
      ExecTwo(s, Load(w, true), Post(w, true, ""));
      SendsExactly(s, Load(w, true), key);
      SendsExactly(t, Post(w, true, ""), key);
    case Posting(_) =>
      ExecTwo(s, Post(w, true, ""), Post(w, true, ""));
      SendsExactly(s, Post(w, true, ""), key);
    case Failing(_) =>
      ExecTwo(s, Record(w, true), Record(w, true));
      RowStaysExactly(s, Record(w, true), key);
    case _ =>
      ExecTwo(s, Mark(w), Mark(w));
      RowStaysExactly(s, Mark(w), key);
  }

  /**
   However many workers there are: SENT is final, and the answer is not sent again, exactly from the
   states in which no worker of its event stands between its claim and its mark, but for one that is
   about to mark the same message ID once more.
   */
  lemma SentIsFinalExactly(s: State, key: DeliveryKey)
    requires Reachable(s) && IsSent(s, key)
    ensures Final(s, key) <==> NoneHarmful(s, key)
  {
    ReachableInv(s);
    InvMeans(s);
    if NoneHarmful(s, key) {
      forall steps ensures Untouched(s, Exec(s, steps), key) { HarmlessIsFinal(s, steps, key); }
    } else {
      var w :| Harmful(s, w, key);
      HarmIsDone(s, w, key);
    }
  }

  /**
   A run changes a SENT row or sends for its key again exactly at its steps that overwrite or send: at
   every point of the run the row and the number of sends are the first ones if and only if none did.
   */
  lemma {:induction false} RunStaysExactly(s: State, steps: seq<Step>, key: DeliveryKey)
    requires IsSent(s, key)
    ensures (forall n :: 0 <= n <= |steps| ==> Untouched(s, Exec(s, steps[..n]), key)) <==> NeverTouches(s, steps, key)
    decreases |steps|
  {
    assert Exec(s, steps[..0]) == s;
    if steps != [] {
      var t := Do(s, steps[0]);
      RowStaysExactly(s, steps[0], key);
      SendsExactly(s, steps[0], key);
      assert steps[..1][1..] == [] && Exec(s, steps[..1]) == t;
      forall n | 0 < n <= |steps| ensures Exec(s, steps[..n]) == Exec(t, steps[1..][..n - 1]) {
        assert steps[..n][1..] == steps[1..][..n - 1];
      }
      if Untouched(s, t, key) {
        RunStaysExactly(t, steps[1..], key);
        forall n | 0 <= n <= |steps[1..]| ensures Exec(t, steps[1..][..n]) == Exec(s, steps[..n + 1]) {
          assert steps[..n + 1][1..] == steps[1..][..n];
        }
      }
    }
  }

  ghost predicate NeverTouches(s: State, steps: seq<Step>, key: DeliveryKey)
    requires IsSent(s, key)
    decreases |steps|
  {
    steps == [] ||
    (RowStaysExactly(s, steps[0], key);
     !Overwrites(s, steps[0], key) && !SendsAgain(s, steps[0], key) && NeverTouches(Do(s, steps[0]), steps[1..], key))
  }

  function Example(): Completed {
    Completed(Minted(0), QA_COMPLETED, "1.0", Minted(1), Minted(2), "t", Minted(3), 1, Minted(4), Minted(5), WECOM)
  }

  /** Worker `w` takes the only entry, claims its delivery and loads the answer. */
  function Taken(w: nat): seq<Step> {
    [Deliver(w, 0), Claim(w), Load(w, true)]
  }

  lemma TakenReachesPosting(s: State, w: nat)
    requires s.entries == [Example()] && s.acked == {} && w !in s.workers
    requires KeyOf(Example()) in s.deliveries ==> s.deliveries[KeyOf(Example())].status != Sent
    ensures var t := Exec(s, Taken(w));
            && t.entries == s.entries && t.acked == {} && t.workers == s.workers[w := Posting(0)]
            && KeyOf(Example()) in t.deliveries && t.deliveries[KeyOf(Example())].status == Sending
  {
    var s1 := Do(s, Deliver(w, 0));
    var s2 := Do(s1, Claim(w));
    var s3 := Do(s2, Load(w, true));
    assert s3.workers == s.workers[w := Posting(0)];
    ExecFollows(Taken(w), [s, s1, s2, s3]);
  }

  lemma PostingEnds(s: State, w: nat)
    requires s.entries == [Example()] && w in s.workers
    requires s.workers[w] == Posting(0) && KeyOf(Example()) in s.deliveries
    ensures var t := Exec(s, [Post(w, true, ""), Mark(w)]);
            && t.entries == s.entries && t.workers == s.workers[w := Settled(0)]
            && KeyOf(Example()) in t.deliveries && t.deliveries[KeyOf(Example())].status == Sent
  {
    var s1 := Do(s, Post(w, true, ""));
    var s2 := Do(s1, Mark(w));
    assert s2.workers == s.workers[w := Settled(0)];
    ExecTwo(s, Post(w, true, ""), Mark(w));
  }

  lemma PostingFails(s: State, w: nat)
    requires s.entries == [Example()] && w in s.workers
    requires s.workers[w] == Posting(0) && KeyOf(Example()) in s.deliveries
    ensures var t := Exec(s, [Post(w, false, ""), Record(w, true)]);
            KeyOf(Example()) in t.deliveries && t.deliveries[KeyOf(Example())].status == RetryableFailed
  {
    ExecTwo(s, Post(w, false, ""), Record(w, true));
  }

  /**
   Without that premise SENT is not final: two workers claim the same delivery, the second one sends
   and marks it, and then the first one fails to send and records the failure.
   */
  lemma SentIsNotFinalWithTwoWorkers()
    ensures var key := KeyOf(Example());
            var s := Exec(Exec(Exec(Exec(Empty, [Publish(Example())]), Taken(0)), Taken(1)),
                          [Post(1, true, ""), Mark(1)]);
            var t := Exec(s, [Post(0, false, ""), Record(0, true)]);
            && key in s.deliveries && s.deliveries[key].status == Sent
            && key in t.deliveries && t.deliveries[key].status == RetryableFailed
  {
    var s1 := Do(Empty, Publish(Example()));
    ExecFollows([Publish(Example())], [Empty, s1]);
    TakenReachesPosting(s1, 0);
    var s2 := Exec(s1, Taken(0));
    TakenReachesPosting(s2, 1);
    var s3 := Exec(s2, Taken(1));
    PostingEnds(s3, 1);
    PostingFails(Exec(s3, [Post(1, true, ""), Mark(1)]), 0);
  }

  lemma {:induction false} ExecFollows(steps: seq<Step>, path: seq<State>)
    requires |path| == |steps| + 1
    requires forall i :: 0 <= i < |steps| ==> Do(path[i], steps[i]) == path[i + 1]
    ensures Exec(path[0], steps) == path[|steps|]
    decreases |steps|
  {
    if steps != [] {
      ExecFollows(steps[1..], path[1..]);
    }
  }
}