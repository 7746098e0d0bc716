/**
 `processOne` of the outbound worker as one program over the delivery table and the stream. Here it
 goes through without another worker in between; each of its calls may fail. What it does is one run
 of the step system of `Outbound`, so everything proved of all runs there holds of it, and of any
 interleaving of its steps with those of others.
 */
module OutboundWorker {
  import opened Wrappers
  import opened Identity
  import opened Outbound

  /** Which of the calls succeed, and the message ID that the service returns. */
  datatype Outcomes = Outcomes(claim: bool, load: bool, send: bool, external: string, mark: bool, record: bool,
                               ack: bool)

  /** The steps of a worker alone, while it handles one entry. */
  ghost predicate OwnSteps(steps: seq<Step>, w: nat, i: nat) {
    forall k :: 0 <= k < |steps| ==> OwnStep(steps[k], k, w, i)
  }

  ghost predicate OwnStep(step: Step, k: nat, w: nat, i: nat) {
    if k == 0 then step == Deliver(w, i) else !step.Publish? && !step.Deliver? && step.w == w
  }

  /** The row after one pass over a valid event for WeCom, from the row it found or made. */
  ghost function RowAfter(row: Delivery, o: Outcomes): Delivery {
    if row.status == Sent then row
    else
      var tried := row.(status := Sending, attempt := row.attempt + 1);
      if o.load && o.send then
        if o.mark then tried.(status := Sent, external := External(o.external)) else tried
      else if o.record then tried.(status := RetryableFailed)
      else tried
  }

  /** The rows after what follows a claim. */
  ghost function AfterSending(ds: Deliveries, key: DeliveryKey, o: Outcomes): Deliveries {
    if o.load && o.send then if o.mark then MarkedSent(ds, key, o.external) else ds
    else if o.record then MarkedFailed(ds, key)
    else ds
  }

  lemma ClaimedAndSent(ds: Deliveries, e: Completed, o: Outcomes)
    requires Upserted(ds, e).status != Sent
    ensures AfterSending(Claimed(ds, e).0, KeyOf(e), o) == ds[KeyOf(e) := RowAfter(Upserted(ds, e), o)]
  {
  }

  /** The store and the stream. The processes and the history are kept for the proofs only. */
  class Outlet {
    var entries: seq<Completed>
    var acked: set<nat>
    var deliveries: Deliveries
    ghost var workers: map<nat, Worker>
    ghost var log: seq<Event>

    constructor ()
      ensures St() == Empty
    {
      entries, acked, deliveries, workers, log := [], {}, map[], map[], [];
    }

    ghost function St(): State
      reads this
    {
      State(entries, acked, deliveries, workers, log)
    }

    method Publish(e: Completed)
      modifies this`entries
      ensures St() == Do(old(St()), Step.Publish(e))
    {
      entries := entries + [e];
    }

    method ClaimOutboundDelivery(e: Completed) returns (claimed: bool)
      modifies this`deliveries
      ensures (deliveries, claimed) == Claimed(old(deliveries), e)
    {
      var key := KeyOf(e);
      if key !in deliveries {
        deliveries := deliveries[key := Delivery(e.request, e.message, e.recipient, e.channel, Pending, 0, None)];
      }
      if deliveries[key].status == Sent {
        assert deliveries[key := deliveries[key]] == deliveries;
        return false;
      }
      deliveries := deliveries[key := deliveries[key].(status := Sending, attempt := deliveries[key].attempt + 1)];
      assert deliveries == Claimed(old(deliveries), e).0;
      return true;
    }

    method MarkOutboundSent(key: DeliveryKey, external: string) returns (ok: bool)
      modifies this`deliveries
      ensures deliveries == MarkedSent(old(deliveries), key, external) && ok == (key in old(deliveries))
    {
      if key !in deliveries {
        return false;
      }
      deliveries := deliveries[key := deliveries[key].(status := Sent, external := External(external))];
      return true;
    }

    method MarkOutboundFailed(key: DeliveryKey)
      modifies this`deliveries
      ensures deliveries == MarkedFailed(old(deliveries), key)
    {
      if key in deliveries {
        deliveries := deliveries[key := deliveries[key].(status := RetryableFailed)];
      }
    }

    /** Takes note that the last statement was a step of the system. */
    ghost method Follow(first: State, steps: seq<Step>, step: Step, w: nat, i: nat) returns (steps': seq<Step>)
      requires OwnSteps(steps, w, i) && OwnStep(step, |steps|, w, i)
      requires var t := Do(Exec(first, steps), step);
               t.entries == entries && t.acked == acked && t.deliveries == deliveries
      modifies this`workers, this`log
      ensures OwnSteps(steps', w, i) && |steps'| > 0
      ensures St() == Do(Exec(first, steps), step) && St() == Exec(first, steps')
    {
      steps' := steps + [step];
      ExecOneMore(first, steps, step);
      workers, log := Do(Exec(first, steps), step).workers, Do(Exec(first, steps), step).log;
    }

    /** Acknowledges the entry, or fails to. */
    method Ack(ghost w: nat, i: nat, ok: bool, ghost first: State, ghost steps: seq<Step>)
      returns (ghost steps': seq<Step>)
      requires St() == Exec(first, steps) && w in workers && i < |entries| && OwnSteps(steps, w, i) && steps != []
      requires workers[w] == Settled(i) || workers[w] == Poisoned(i)
      modifies this`acked, this`workers, this`log
      ensures St() == Exec(first, steps') && OwnSteps(steps', w, i)
      ensures acked == if ok then old(acked) + {i} else old(acked)
      ensures workers == old(workers) - {w} && log == old(log)
    {
      if ok {
        acked := acked + {i};
        steps' := Follow(first, steps, Step.Ack(w), w, i);
      } else {
        steps' := Follow(first, steps, Crash(w), w, i);
      }
    }

    /** `processOne`, for an entry that the stream hands to worker `w`. */
    method ProcessOne(ghost w: nat, i: nat, o: Outcomes) returns (ghost steps: seq<Step>)
      requires i < |entries| && i !in acked && w !in workers
      modifies this
      ensures St() == Exec(old(St()), steps) && OwnSteps(steps, w, i) && entries == old(entries)
      ensures var e := entries[i];
              var key := KeyOf(e);
              var tries := ValidCompleted(e) && e.channel == WECOM;
              var row := Upserted(old(deliveries), e);
              && deliveries == (if tries && o.claim then old(deliveries)[key := RowAfter(row, o)] else old(deliveries))
              && (i in acked <==> o.ack && (tries ==> o.claim && (row.status == Sent || (o.load && o.send && o.mark))))
              && log == (if tries && o.claim && row.status != Sent
                         then old(log) + [ClaimEvent(key)]
                              + (if o.load && o.send then [SendEvent(key, e.message, e.recipient)] else [])
                              + (if o.load && o.send && o.mark then [MarkEvent(key)] else [])
                         else old(log))
    {
      ghost var first := St();
      var e := entries[i];
      steps := Follow(first, [], Deliver(w, i), w, i);
      if !ValidCompleted(e) || e.channel != WECOM {
        steps := Ack(w, i, o.ack, first, steps);
        return;
      }
      steps := ClaimAndSend(w, i, o, first, steps);
    }

    /** The rest of `processOne`, for an answer that goes to WeCom. */
    method ClaimAndSend(ghost w: nat, i: nat, o: Outcomes, ghost first: State, ghost steps: seq<Step>)
      returns (ghost steps': seq<Step>)
      requires St() == Exec(first, steps) && i < |entries| && OwnSteps(steps, w, i) && steps != []
      requires w in workers && workers[w] == Ready(i)
      modifies this
      ensures St() == Exec(first, steps') && OwnSteps(steps', w, i) && entries == old(entries)
      ensures var e := entries[i];
              var key := KeyOf(e);
              var row := Upserted(old(deliveries), e);
              && deliveries == (if o.claim then old(deliveries)[key := RowAfter(row, o)] else old(deliveries))
              && acked == (if o.ack && o.claim && (row.status == Sent || (o.load && o.send && o.mark))
                           then old(acked) + {i} else old(acked))
              && log == (if o.claim && row.status != Sent
                         then old(log) + [ClaimEvent(key)]
                              + (if o.load && o.send then [SendEvent(key, e.message, e.recipient)] else [])
                              + (if o.load && o.send && o.mark then [MarkEvent(key)] else [])
                         else old(log))
    {
      if !o.claim {
        steps' := Follow(first, steps, Crash(w), w, i);
        return;
      }
      var claimed := ClaimOutboundDelivery(entries[i]);
      steps' := Follow(first, steps, Claim(w), w, i);
      if !claimed {
        steps' := Ack(w, i, o.ack, first, steps');
        return;
      }
      ClaimedAndSent(old(deliveries), entries[i], o);
      steps' := SendClaimed(w, i, o, first, steps');
    }

    /** The rest of `processOne`, once the delivery is claimed. */
    method SendClaimed(ghost w: nat, i: nat, o: Outcomes, ghost first: State, ghost steps: seq<Step>)
      returns (ghost steps': seq<Step>)
      requires St() == Exec(first, steps) && i < |entries| && OwnSteps(steps, w, i) && steps != []
      requires w in workers && workers[w] == Loading(i) && KeyOf(entries[i]) in deliveries
      modifies this
      ensures St() == Exec(first, steps') && OwnSteps(steps', w, i) && entries == old(entries)
      ensures var e := entries[i];
              var key := KeyOf(e);
              var row := old(deliveries)[key];
              && acked == (if o.ack && o.load && o.send && o.mark then old(acked) + {i} else old(acked))
              && deliveries == AfterSending(old(deliveries), key, o)
              && log == old(log)
                        + (if o.load && o.send then [SendEvent(key, e.message, e.recipient)] else [])
                        + (if o.load && o.send && o.mark then [MarkEvent(key)] else [])
    {
      steps' := Follow(first, steps, Load(w, o.load), w, i);
      if !o.load {
        steps' := RecordFailure(w, i, o.record, first, steps');
        return;
      }
      steps' := Follow(first, steps', Post(w, o.send, o.external), w, i);
      if !o.send {
        steps' := RecordFailure(w, i, o.record, first, steps');
        return;
      }
      steps' := FinishSent(w, i, o, first, steps');
    }

    /** The rest, once the answer is sent. */
    method FinishSent(ghost w: nat, i: nat, o: Outcomes, ghost first: State, ghost steps: seq<Step>)
      returns (ghost steps': seq<Step>)
      requires St() == Exec(first, steps) && i < |entries| && OwnSteps(steps, w, i) && steps != []
      requires w in workers && workers[w] == Marking(i, o.external) && KeyOf(entries[i]) in deliveries
      modifies this`acked, this`deliveries, this`workers, this`log
      ensures St() == Exec(first, steps') && OwnSteps(steps', w, i)
      ensures acked == if o.ack && o.mark then old(acked) + {i} else old(acked)
      ensures deliveries
           == if o.mark then MarkedSent(old(deliveries), KeyOf(entries[i]), o.external) else old(deliveries)
      ensures log == old(log) + if o.mark then [MarkEvent(KeyOf(entries[i]))] else []
    {
      if !o.mark {
        steps' := Follow(first, steps, Crash(w), w, i);
        return;
      }
      var ok := MarkOutboundSent(KeyOf(entries[i]), o.external);
      steps' := Follow(first, steps, Mark(w), w, i);
      steps' := Ack(w, i, o.ack, first, steps');
    }

    /** `recordFailure` */
    method RecordFailure(ghost w: nat, i: nat, ok: bool, ghost first: State, ghost steps: seq<Step>)
      returns (ghost steps': seq<Step>)
      requires St() == Exec(first, steps) && i < |entries| && OwnSteps(steps, w, i) && steps != []
      requires w in workers && workers[w] == Failing(i)
      modifies this`deliveries, this`workers, this`log
      ensures St() == Exec(first, steps') && OwnSteps(steps', w, i) && log == old(log)
      ensures deliveries == if ok then MarkedFailed(old(deliveries), KeyOf(entries[i])) else old(deliveries)
    {
      if ok {
        MarkOutboundFailed(KeyOf(entries[i]));
      }
      steps' := Follow(first, steps, Record(w, ok), w, i);
    }
  }
}
