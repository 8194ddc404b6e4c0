/**
  One reader of an event log as a value: the rest of its snapshot, its bounded queue, and what
  it has received. The class `EventHub.Subscriber` does to its fields what the functions here
  do to this value, so what holds over any run of these functions holds of subscribers.
 */
module Subscriptions {
  import opened Wrappers
  import opened Journal

  // What one resumption of a subscriber's generator does.
  datatype Pull = Yield(event: Event) | Overflow | End | Waiting

  datatype Reader = Reader(
    maxQueueBytes: nat, snapshot: seq<Event>, joined: nat,
    pending: seq<Event>, queue: seq<Event>, accepted: nat, overflowed: bool, asleep: bool, received: seq<Event>)

  function Joining(maxQueueBytes: nat, snapshot: seq<Event>, joined: nat): Reader {
    Reader(maxQueueBytes, snapshot, joined, snapshot, [], 0, false, false, [])
  }

  // ---- Steps -------------------------------------------------------------------------

  // One published event: taken into the queue, or the end of this reader's stream.
  function Offered(size: Sizer, r: Reader, event: Event): Reader {
    if r.overflowed then r
    else if Bytes(size, r.queue) + size(event) > r.maxQueueBytes then r.(overflowed := true, asleep := false)
    else r.(queue := r.queue + [event], accepted := r.accepted + 1, asleep := false)
  }

  // Publications never touch what was received or replayed, only lengthen the queue, and
  // never take back an overflow.
  function OfferedAll(size: Sizer, r: Reader, events: seq<Event>): (r': Reader)
    ensures r'.received == r.received && r'.pending == r.pending && r'.snapshot == r.snapshot && r'.joined == r.joined
    ensures r.queue <= r'.queue && r.accepted <= r'.accepted
    ensures r.overflowed ==> r'.overflowed && r'.accepted == r.accepted
  {
    if events == [] then r
    else Offered(size, OfferedAll(size, r, events[..|events| - 1]), events[|events| - 1])
  }

  lemma OfferedOneMore(size: Sizer, r: Reader, events: seq<Event>, event: Event)
    ensures OfferedAll(size, r, events + [event]) == Offered(size, OfferedAll(size, r, events), event)
  {
    assert (events + [event])[..|events|] == events;
  }

  lemma {:induction false} OfferedInTwo(size: Sizer, r: Reader, a: seq<Event>, b: seq<Event>)
    ensures OfferedAll(size, r, a + b) == OfferedAll(size, OfferedAll(size, r, a), b)
  {
    hide Offered;
    if b == [] {
      assert a + b == a;
    } else {
      var init, last := b[..|b| - 1], b[|b| - 1];
      assert a + b == (a + init) + [last];
      OfferedOneMore(size, r, a + init, last);
      OfferedInTwo(size, r, a, init);
    }
  }

  // What a whole publication does to a reader: it overflows exactly if it had, or if the events
  // do not all fit beside its queue; if it does not, all of them are queued behind it.
  lemma {:induction false} OverflowsExactly(size: Sizer, r: Reader, events: seq<Event>)
    requires Bytes(size, r.queue) <= r.maxQueueBytes
    ensures OfferedAll(size, r, events).overflowed <==> r.overflowed || Bytes(size, r.queue) + Bytes(size, events) > r.maxQueueBytes
    ensures !OfferedAll(size, r, events).overflowed ==> OfferedAll(size, r, events).queue == r.queue + events
    ensures OfferedAll(size, r, events).maxQueueBytes == r.maxQueueBytes
  {
    if events == [] {
      assert r.queue + events == r.queue;
    } else {
      var init, last := events[..|events| - 1], events[|events| - 1];
      assert events == init + [last];
      OverflowsExactly(size, r, init);
      BytesConcat(size, r.queue, init);
      BytesAppend(size, init, last);
      hide Bytes;
      assert r.queue + events == (r.queue + init) + [last];
    }
  }

  // The same for all readers of a log that grows.
  lemma OfferedNothing(size: Sizer)
    ensures forall r: Reader :: OfferedAll(size, r, []) == r
  {
  }

  lemma OfferedNext(size: Sizer, log: seq<Event>, base: nat, event: Event)
    requires base <= |log|
    ensures forall r: Reader :: OfferedAll(size, r, (log + [event])[base..]) == Offered(size, OfferedAll(size, r, log[base..]), event)
  {
    hide Offered, OfferedAll;
    assert (log + [event])[base..] == log[base..] + [event];
    forall r: Reader ensures OfferedAll(size, r, (log + [event])[base..]) == Offered(size, OfferedAll(size, r, log[base..]), event) {
      OfferedOneMore(size, r, log[base..], event);
    }
  }

  lemma OfferedFirst(size: Sizer, log: seq<Event>, event: Event, longer: seq<Event>)
    requires log + [event] <= longer
    ensures forall r: Reader ::
              OfferedAll(size, r, longer[|log|..]) == OfferedAll(size, Offered(size, r, event), longer[|log| + 1..])
  {
    assert longer[|log|..] == [event] + longer[|log| + 1..];
    forall r: Reader
      ensures OfferedAll(size, r, longer[|log|..]) == OfferedAll(size, Offered(size, r, event), longer[|log| + 1..])
    {
      OfferedInTwo(size, r, [event], longer[|log| + 1..]);
      OfferedOneMore(size, r, [], event);
      assert [] + [event] == [event];
    }
  }

  // The snapshot first, then the queue, and only then an overflow or the end of the run.
  function PullResult(r: Reader, done: bool): Pull {
    if r.pending != [] then Yield(r.pending[0])
    else if r.queue != [] then Yield(r.queue[0])
    else if r.overflowed then Overflow
    else if done then End
    else Waiting
  }

  function Pulled(r: Reader, done: bool): Reader {
    match PullResult(r, done)
    case Yield(event) =>
      if r.pending != [] then r.(pending := r.pending[1..], received := r.received + [event])
      else r.(queue := r.queue[1..], received := r.received + [event])
    case Waiting => r.(asleep := true)
    case _ => r
  }

  function Woken(r: Reader): Reader {
    r.(asleep := false)
  }

  // ---- Following the log -------------------------------------------------------------

  // Delivered and waiting events are the snapshot and then a gap-free run of the log; the
  // run is everything since it joined unless the queue overflowed.
  ghost predicate Follows(size: Sizer, r: Reader, log: seq<Event>, initial: nat, done: bool) {
    && r.joined + r.accepted <= |log|
    && r.received + r.pending + r.queue == r.snapshot + log[r.joined..r.joined + r.accepted]
    && (!r.overflowed ==> r.joined + r.accepted == |log|)
    && Bytes(size, r.queue) <= r.maxQueueBytes
    && (forall e :: e in r.queue ==> e.sequence > initial + r.joined)
    && SubLog(r.snapshot, log, initial)
    && (forall e :: e in r.snapshot ==> e.sequence <= initial + r.joined)
    // no lost wake-up
    && (r.asleep ==> r.pending == [] && r.queue == [] && !r.overflowed && !done)
  }

  lemma JoiningFollows(size: Sizer, maxQueueBytes: nat, snapshot: seq<Event>, log: seq<Event>, initial: nat, done: bool)
    requires SubLog(snapshot, log, initial)
    ensures Follows(size, Joining(maxQueueBytes, snapshot, |log|), log, initial, done)
  {
    forall e | e in snapshot ensures e.sequence <= initial + |log| {
      assert InLog(e, log, initial);
    }
  }

  lemma OfferedFollows(size: Sizer, r: Reader, log: seq<Event>, initial: nat, event: Event)
    requires Follows(size, r, log, initial, false) && event.sequence == initial + |log| + 1
    ensures Follows(size, Offered(size, r, event), log + [event], initial, false)
  {
    SnapshotSurvives(r.snapshot, log, initial, event);
    BytesAppend(size, r.queue, event);
    hide SubLog, Bytes;
    TakenAlike(log, event, r.joined, r.accepted);
    if !Offered(size, r, event).overflowed {
      QueuedExtends(r.received + r.pending, r.queue, r.snapshot, log, r.joined, event);
    }
  }

  lemma TakenAlike(log: seq<Event>, event: Event, from: nat, n: nat)
    requires from + n <= |log|
    ensures log[from..from + n] == (log + [event])[from..from + n]
  {
  }

  lemma QueuedExtends(before: seq<Event>, queue: seq<Event>, snapshot: seq<Event>, log: seq<Event>, from: nat, event: Event)
    requires from <= |log| && before + queue == snapshot + log[from..]
    ensures before + (queue + [event]) == snapshot + (log + [event])[from..]
  {
    assert (log + [event])[from..] == log[from..] + [event];
    assert before + (queue + [event]) == (before + queue) + [event];
    assert snapshot + (log[from..] + [event]) == (snapshot + log[from..]) + [event];
  }

  lemma SnapshotSurvives(snapshot: seq<Event>, log: seq<Event>, initial: nat, event: Event)
    requires SubLog(snapshot, log, initial)
    ensures SubLog(snapshot, log + [event], initial)
  {
    forall e | e in snapshot ensures InLog(e, log + [event], initial) {
      assert InLog(e, log, initial);
    }
  }

  lemma PulledFollows(size: Sizer, r: Reader, log: seq<Event>, initial: nat, done: bool)
    requires Follows(size, r, log, initial, done)
    ensures Follows(size, Pulled(r, done), log, initial, done)
  {
    hide SubLog, Bytes;
    var r' := Pulled(r, done);
    if r.pending != [] {
      assert r'.received + r'.pending == r.received + r.pending;
    } else if r.queue != [] {
      QueueShrinks(size, r.queue);
      assert r'.received + r'.pending + r'.queue == r.received + r.pending + r.queue;
    }
  }

  lemma QueueShrinks(size: Sizer, queue: seq<Event>)
    requires queue != []
    ensures Bytes(size, queue) == size(queue[0]) + Bytes(size, queue[1..])
  {
  }

  lemma WokenFollows(size: Sizer, r: Reader, log: seq<Event>, initial: nat)
    requires Follows(size, r, log, initial, false)
    ensures Follows(size, Woken(r), log, initial, true)
  {
  }

  // ---- Any run of publications, resumptions and the end ------------------------------

  datatype Observed = Observed(log: seq<Event>, done: bool, reader: Reader)

  datatype Op = Emit(event: Event) | Complete | Resume

  predicate Enabled(o: Observed, initial: nat, op: Op) {
    op.Emit? ==> !o.done && op.event.sequence == initial + |o.log| + 1
  }

  function Next(size: Sizer, o: Observed, op: Op): Observed {
    match op
    case Emit(event) => o.(log := o.log + [event], reader := Offered(size, o.reader, event))
    case Complete => if o.done then o else o.(done := true, reader := Woken(o.reader))
    case Resume => o.(reader := Pulled(o.reader, o.done))
  }

  // A reader joins with a replay of the log so far; then anything may happen, in any order.
  ghost predicate Behavior(size: Sizer, initial: nat, states: seq<Observed>, ops: seq<Op>) {
    && |states| == |ops| + 1
    && IsLog(states[0].log, initial)
    && SubLog(states[0].reader.snapshot, states[0].log, initial)
    && states[0].reader == Joining(states[0].reader.maxQueueBytes, states[0].reader.snapshot, |states[0].log|)
    && forall i :: 0 <= i < |ops| ==> Enabled(states[i], initial, ops[i]) && states[i + 1] == Next(size, states[i], ops[i])
  }

  ghost predicate Sound(size: Sizer, initial: nat, o: Observed) {
    IsLog(o.log, initial) && Follows(size, o.reader, o.log, initial, o.done)
  }

  lemma StepIsSound(size: Sizer, initial: nat, o: Observed, op: Op)
    requires Sound(size, initial, o) && Enabled(o, initial, op)
    ensures Sound(size, initial, Next(size, o, op))
  {
    hide Follows, Offered, Pulled, Woken;
    match op
    case Emit(event) => OfferedFollows(size, o.reader, o.log, initial, event);
    case Complete =>
      if !o.done {
        WokenFollows(size, o.reader, o.log, initial);
      }
    case Resume => PulledFollows(size, o.reader, o.log, initial, o.done);
  }

  lemma {:induction false} EveryStateIsSound(size: Sizer, initial: nat, states: seq<Observed>, ops: seq<Op>, i: nat)
    requires Behavior(size, initial, states, ops) && i < |states|
    ensures Sound(size, initial, states[i])
  {
    hide Follows, Enabled, Next, SubLog, Joining, IsLog;
    if i == 0 {
      var o := states[0];
      JoiningFollows(size, o.reader.maxQueueBytes, o.reader.snapshot, o.log, initial, o.done);
    } else {
      EveryStateIsSound(size, initial, states, ops, i - 1);
      hide Sound;
      StepIsSound(size, initial, states[i - 1], ops[i - 1]);
    }
  }

  // What no step of a run takes back: deliveries, acceptances, and an overflow, after which
  // nothing more is accepted.
  ghost predicate Grows(r: Reader, r': Reader) {
    && r'.snapshot == r.snapshot && r'.joined == r.joined && r'.maxQueueBytes == r.maxQueueBytes
    && r.received <= r'.received
    && r.accepted <= r'.accepted
    && (r.overflowed ==> r'.overflowed && r'.accepted == r.accepted)
  }

  lemma StepGrows(size: Sizer, o: Observed, op: Op)
    ensures Grows(o.reader, Next(size, o, op).reader)
    ensures o.log <= Next(size, o, op).log
  {
    hide Bytes;
  }

  lemma {:induction false} ReadersNeverGoBack(size: Sizer, initial: nat, states: seq<Observed>, ops: seq<Op>, i: nat, j: nat)
    requires Behavior(size, initial, states, ops) && i <= j < |states|
    ensures Grows(states[i].reader, states[j].reader)
    ensures states[i].log <= states[j].log
    decreases j
  {
    hide Enabled, Next, SubLog, Joining, IsLog;
    if i < j {
      ReadersNeverGoBack(size, initial, states, ops, i, j - 1);
      StepGrows(size, states[j - 1], ops[j - 1]);
    }
  }

  // ---- Main results ------------------------------------------------------------------

  // Over any run, what was received never changes and only grows, in strictly increasing
  // order and without repetition; with what is still waiting it is the snapshot and a
  // gap-free run of the log, which is everything unless the reader overflowed.
  lemma DeliveryIsExact(size: Sizer, initial: nat, states: seq<Observed>, ops: seq<Op>, i: nat, j: nat)
    requires Behavior(size, initial, states, ops) && i <= j < |states|
    ensures states[i].reader.received <= states[j].reader.received
    ensures SubLog(states[j].reader.received, states[j].log, initial)
    ensures var r := states[j].reader;
            && r.joined + r.accepted <= |states[j].log|
            && r.received + r.pending + r.queue == r.snapshot + states[j].log[r.joined..r.joined + r.accepted]
            && (!r.overflowed ==> r.joined + r.accepted == |states[j].log|)
  {
    hide Behavior, SubLog;
    ReadersNeverGoBack(size, initial, states, ops, i, j);
    EveryStateIsSound(size, initial, states, ops, j);
    var r := states[j].reader;
    assert r.received <= r.snapshot + states[j].log[r.joined..r.joined + r.accepted] by {
      assert r.received + r.pending + r.queue == r.received + (r.pending + r.queue);
    }
    DeliveryIsStrictlyOrdered(r.snapshot, states[j].log, initial, r.joined, r.accepted, r.received);
  }

  // A received prefix is strictly ordered and drawn from the log.
  lemma DeliveryIsStrictlyOrdered(snapshot: seq<Event>, log: seq<Event>, initial: nat,
                                  joined: nat, accepted: nat, received: seq<Event>)
    requires IsLog(log, initial) && SubLog(snapshot, log, initial)
    requires joined + accepted <= |log|
    requires forall e :: e in snapshot ==> e.sequence <= initial + joined
    requires received <= snapshot + log[joined..joined + accepted]
    ensures SubLog(received, log, initial)
  {
    var all := snapshot + log[joined..joined + accepted];
    forall i, k | 0 <= i < k < |all| ensures all[i].sequence < all[k].sequence {
      if i < |snapshot| <= k {
        assert all[i] in snapshot;
      }
    }
    forall e | e in received ensures InLog(e, log, initial) {
      var i :| 0 <= i < |received| && received[i] == e;
      assert e == all[i];
      if i >= |snapshot| {
        assert e == log[joined + i - |snapshot|];
      } else {
        assert e in snapshot;
      }
    }
  }

  // An overflow is justified: a publication ends a reader's stream exactly if the event does
  // not fit beside what is queued, and otherwise the event is queued last. Nothing else sets
  // or takes back an overflow, and nothing else lengthens the queue.
  lemma OverflowIsJustified(size: Sizer, initial: nat, states: seq<Observed>, ops: seq<Op>, i: nat)
    requires Behavior(size, initial, states, ops) && i < |ops|
    ensures var r, r' := states[i].reader, states[i + 1].reader;
            && (ops[i].Emit? && !r.overflowed ==>
                  && (r'.overflowed <==> Bytes(size, r.queue) + size(ops[i].event) > r.maxQueueBytes)
                  && (!r'.overflowed ==> r'.queue == r.queue + [ops[i].event] && r'.accepted == r.accepted + 1)
                  && !r'.asleep)
            && (ops[i].Emit? && r'.overflowed ==> r'.queue == r.queue && r'.accepted == r.accepted)
            && (ops[i].Emit? ==> r'.received == r.received && r'.pending == r.pending)
            && (!ops[i].Emit? ==> r'.overflowed == r.overflowed && r'.accepted == r.accepted && |r'.queue| <= |r.queue|)
  {
    hide Bytes, SubLog, IsLog;
  }

  // A resumption delivers the oldest waiting event, and only with nothing waiting does it end
  // the stream or wait.
  lemma PullExactly(r: Reader, done: bool)
    ensures var r', waiting := Pulled(r, done), r.pending + r.queue;
            if waiting != [] then
              && PullResult(r, done) == Yield(waiting[0])
              && r'.received == r.received + [waiting[0]] && r'.pending + r'.queue == waiting[1..]
            else
              && PullResult(r, done) == (if r.overflowed then Overflow else if done then End else Waiting)
              && r'.received == r.received && r'.pending + r'.queue == []
    ensures Pulled(r, done).overflowed == r.overflowed && Pulled(r, done).accepted == r.accepted
  {
    if r.pending != [] {
      assert (r.pending + r.queue)[1..] == r.pending[1..] + r.queue;
    } else {
      assert r.pending + r.queue == r.queue;
    }
  }

  lemma ResumedIs(size: Sizer, initial: nat, states: seq<Observed>, ops: seq<Op>, i: nat)
    requires Behavior(size, initial, states, ops) && i < |ops| && ops[i].Resume?
    ensures states[i + 1] == states[i].(reader := Pulled(states[i].reader, states[i].done))
  {
    hide Bytes, SubLog, IsLog, Pulled;
  }

  // A reader that is resumed has everything delivered after one resumption per waiting event,
  // and then learns how its stream stands: overflowed, ended, or going on.
  lemma {:induction false} DrainsInBoundedTurns(size: Sizer, initial: nat, states: seq<Observed>, ops: seq<Op>, i: nat, n: nat)
    requires Behavior(size, initial, states, ops) && i + n < |states|
    requires n == |states[i].reader.pending| + |states[i].reader.queue|
    requires forall k :: i <= k < i + n ==> ops[k].Resume?
    ensures var r, r' := states[i].reader, states[i + n].reader;
            && r'.received == r.received + (r.pending + r.queue) && r'.pending == [] && r'.queue == []
            && PullResult(r', states[i].done) == if r.overflowed then Overflow else if states[i].done then End else Waiting
    decreases n
  {
    hide Behavior, Pulled, PullResult;
    var r := states[i].reader;
    PullExactly(r, states[i].done);
    if n > 0 {
      InStep(size, initial, states, ops, i);
      ResumedIs(size, initial, states, ops, i);
      var next := states[i + 1].reader;
      assert |next.pending + next.queue| == n - 1;
      DrainsInBoundedTurns(size, initial, states, ops, i + 1, n - 1);
      OneFirst(r.received, r.pending + r.queue);
    }
  }

  lemma OneFirst(received: seq<Event>, waiting: seq<Event>)
    requires waiting != []
    ensures (received + [waiting[0]]) + waiting[1..] == received + waiting
  {
  }

  lemma InStep(size: Sizer, initial: nat, states: seq<Observed>, ops: seq<Op>, i: nat)
    requires Behavior(size, initial, states, ops) && i + 1 < |states|
    ensures |ops| + 1 == |states|
  {
  }

  // Overflow and the end are reported only once everything accepted was delivered, and the end
  // only if nothing was missed; a reader that overflowed stays behind where it was. With
  // nothing waiting, an overflow is reported exactly by a reader that overflowed, and the end
  // exactly by one that did not, of a run that is done.
  lemma EndsAreHonest(size: Sizer, initial: nat, states: seq<Observed>, ops: seq<Op>, i: nat, j: nat)
    requires Behavior(size, initial, states, ops) && i <= j < |states|
    ensures var r, log := states[j].reader, states[j].log;
            && (PullResult(r, states[j].done).Overflow? ==>
                  r.joined + r.accepted <= |log| && r.received == r.snapshot + log[r.joined..r.joined + r.accepted])
            && (PullResult(r, states[j].done).End? ==> r.joined <= |log| && r.received == r.snapshot + log[r.joined..])
            && (r.asleep ==> PullResult(r, states[j].done).Waiting?)
    ensures var r, done := states[j].reader, states[j].done;
            var drained := r.pending == [] && r.queue == [];
            && (PullResult(r, done).Overflow? <==> drained && r.overflowed)
            && (PullResult(r, done).End? <==> drained && !r.overflowed && done)
            && (PullResult(r, done).Waiting? <==> drained && !r.overflowed && !done)
    ensures states[i].reader.overflowed ==> states[j].reader.overflowed && states[j].reader.accepted == states[i].reader.accepted
  {
    hide Behavior, SubLog, Bytes, IsLog;
    ReadersNeverGoBack(size, initial, states, ops, i, j);
    EveryStateIsSound(size, initial, states, ops, j);
    var r := states[j].reader;
    assert r.received + [] + [] == r.received;
  }
}
