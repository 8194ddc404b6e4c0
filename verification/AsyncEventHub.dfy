/**
  The per-run event hub: an append-only log seen through a byte-bounded journal and any
  number of live subscribers. The ghost field `emitted` is the whole log; nothing is ever
  taken out of it, so every statement about lost or repeated events is about this field.
 */
module EventHub {
  import opened Wrappers
  import opened Journal
  import S = Subscriptions

  datatype HubError =
    | InvalidBudget        // the constructor's RangeError
    | Completed            // publication after completion
    | HistoryExpired       // the requested history, or the publication window, is gone
    | SubscriberOverflow   // this subscriber fell too far behind
    | InvalidCursor        // negative cursor
    | CursorAhead          // cursor beyond what was emitted

  /** One live observer: the rest of its snapshot, then its bounded queue. */
  class Subscriber {
    const maxQueueBytes: nat
    const snapshotSequence: nat
    var pending: seq<Event>     // part of the snapshot not yet yielded
    var queue: seq<Event>
    var queueBytes: int
    var overflowed: bool        // the source's `error`
    var asleep: bool            // suspended on its wake promise

    ghost const snapshot: seq<Event>
    ghost const joined: nat     // length of the log when it joined
    ghost var accepted: nat     // how many later events entered the queue
    ghost var received: seq<Event>

    constructor (maxQueueBytes: nat, snapshotSequence: nat, snapshot: seq<Event>,
                 ghost size: Sizer, ghost log: seq<Event>, ghost initial: nat, ghost done: bool)
      requires SubLog(snapshot, log, initial) && snapshotSequence == initial + |log|
      ensures Follows(size, log, initial, done)
      ensures Reader() == S.Joining(maxQueueBytes, snapshot, |log|)
    {
      this.maxQueueBytes, this.snapshotSequence := maxQueueBytes, snapshotSequence;
      this.snapshot, this.pending, this.joined := snapshot, snapshot, |log|;
      queue, queueBytes, overflowed, asleep := [], 0, false, false;
      accepted, received := 0, [];
      new;
      S.JoiningFollows(size, maxQueueBytes, snapshot, log, initial, done);
    }

    ghost function Reader(): S.Reader
      reads this
    {
      S.Reader(maxQueueBytes, snapshot, joined, pending, queue, accepted, overflowed, asleep, received)
    }

    // The fields follow the log, and the byte count is that of the queue.
    ghost predicate Follows(size: Sizer, log: seq<Event>, initial: nat, done: bool)
      reads this
    {
      && snapshotSequence == initial + joined
      && queueBytes == Bytes(size, queue)
      && S.Follows(size, Reader(), log, initial, done)
    }

    // One resumption of the generator.
    method Resume(size: Sizer, ghost log: seq<Event>, ghost initial: nat, done: bool) returns (r: S.Pull)
      requires Follows(size, log, initial, done)
      modifies this
      ensures Follows(size, log, initial, done)
      ensures r == S.PullResult(old(Reader()), done)
      ensures Reader() == S.Pulled(old(Reader()), done)
    {
      S.PulledFollows(size, Reader(), log, initial, done);
      hide SubLog, Bytes;
      if pending != [] {
        var next := pending[0];
        received := received + [next];
        pending := pending[1..];
        return S.Yield(next);
      }
      if queue != [] {
        var next := queue[0];
        S.QueueShrinks(size, queue);
        // The source skips queued events its snapshot already showed; there are none.
        assert next in queue && next.sequence > snapshotSequence;
        received := received + [next];
        queue := queue[1..];
        queueBytes := queueBytes - size(next);
        return S.Yield(next);
      }
      if overflowed {
        return S.Overflow;
      }
      if done {
        return S.End;
      }
      asleep := true;
      return S.Waiting;
    }

    // Woken by completion.
    method Wake(ghost size: Sizer, ghost log: seq<Event>, ghost initial: nat)
      requires Follows(size, log, initial, false)
      modifies this`asleep
      ensures Follows(size, log, initial, true)
      ensures Reader() == S.Woken(old(Reader()))
      ensures !asleep
    {
      hide S.Follows;
      S.WokenFollows(size, Reader(), log, initial);
      asleep := false;
    }

    // One subscriber's turn in a publication: it may overflow, and only itself.
    method Offer(event: Event, size: Sizer, ghost log: seq<Event>, ghost initial: nat)
      requires Follows(size, log, initial, false)
      requires event.sequence == initial + |log| + 1
      modifies this
      ensures Follows(size, log + [event], initial, false)
      ensures Reader() == S.Offered(size, old(Reader()), event)
      // it overflows exactly if the event does not fit beside the queue, and is woken either way
      ensures overflowed <==> old(overflowed) || old(queueBytes) + size(event) > maxQueueBytes
      ensures queue == if overflowed then old(queue) else old(queue) + [event]
      ensures queueBytes == if overflowed then old(queueBytes) else old(queueBytes) + size(event)
      ensures received == old(received) && pending == old(pending)
      ensures !old(overflowed) ==> !asleep
    {
      S.OfferedFollows(size, Reader(), log, initial, event);
      BytesAppend(size, queue, event);
      hide Bytes;
      if overflowed {
        return;
      }
      asleep := false;
      if queueBytes + size(event) > maxQueueBytes {
        overflowed := true;
        return;
      }
      queue := queue + [event];
      queueBytes := queueBytes + size(event);
      accepted := accepted + 1;
    }
  }

  class AsyncEventHub {
    const size: Sizer
    const maxJournalBytes: nat
    const maxSubscriberBytes: nat
    const initialSequence: nat
    const maxSequence: nat
    var journal: seq<Event>
    var journalBytes: int
    var sequence: nat
    var subscribers: set<Subscriber>
    var completed: bool
    var expired: bool
    var truncationDiagnostic: Option<Event>
    var droppedDeltas: nat
    var droppedEvents: nat

    ghost var emitted: seq<Event>

    constructor (size: Sizer, maxJournalBytes: nat, maxSubscriberBytes: nat, initialSequence: nat, maxSequence: nat)
      ensures Valid() && fresh(subscribers) && subscribers == {}
      ensures emitted == [] && journal == [] && !completed && !expired
      ensures this.size == size && this.maxJournalBytes == maxJournalBytes && this.maxSubscriberBytes == maxSubscriberBytes
      ensures this.initialSequence == initialSequence && this.maxSequence == maxSequence
    {
      this.size, this.maxJournalBytes, this.maxSubscriberBytes := size, maxJournalBytes, maxSubscriberBytes;
      this.initialSequence, this.maxSequence := initialSequence, maxSequence;
      journal, journalBytes, sequence, subscribers := [], 0, initialSequence, {};
      completed, expired, truncationDiagnostic, droppedDeltas, droppedEvents := false, false, None, 0, 0;
      emitted := [];
    }

    // The checked way to make a hub; a budget that cannot hold an envelope is refused.
    static method Create(size: Sizer, maxJournalBytes: int, maxSubscriberBytes: int, initialSequence: nat, maxSequence: nat)
      returns (r: Result<AsyncEventHub, HubError>)
      ensures r.Err? <==> maxJournalBytes < 1024 || maxSubscriberBytes <= 0
      ensures r.Err? ==> r.error == InvalidBudget
      ensures r.Ok? ==> fresh(r.value) && r.value.Valid() && r.value.emitted == [] && r.value.subscribers == {}
      ensures r.Ok? ==>
                && r.value.size == size && r.value.maxJournalBytes == maxJournalBytes
                && r.value.maxSubscriberBytes == maxSubscriberBytes
                && r.value.initialSequence == initialSequence && r.value.maxSequence == maxSequence
                && r.value.journal == [] && !r.value.completed && !r.value.expired
    {
      if maxJournalBytes < 1024 || maxSubscriberBytes <= 0 {
        return Err(InvalidBudget);
      }
      var hub := new AsyncEventHub(size, maxJournalBytes, maxSubscriberBytes, initialSequence, maxSequence);
      return Ok(hub);
    }

    // ---- Invariants ------------------------------------------------------------------

    ghost function State(): Retention
      reads this
    {
      Retention(journal, emitted, initialSequence, maxSequence, expired,
                truncationDiagnostic, droppedEvents, droppedDeltas)
    }

    ghost predicate Core()
      reads this
    {
      && sequence == initialSequence + |emitted|
      && journalBytes == Bytes(size, journal)
      && Consistent(State())
    }

    // The journal is within budget, except that a lone diagnostic may be larger than it.
    ghost predicate WithinBudget()
      reads this
    {
      || journalBytes <= maxJournalBytes
      || (truncationDiagnostic.Some? && journal == [truncationDiagnostic.value])
    }

    ghost predicate Served()
      reads this, subscribers
    {
      forall s :: s in subscribers ==> s.Follows(size, emitted, initialSequence, completed)
    }

    ghost predicate Valid()
      reads this, subscribers
    {
      Core() && WithinBudget() && Reported(State()) && Served()
    }

    // ---- Publication -----------------------------------------------------------------

    method Publish(kind: string, json: string) returns (r: Result<Event, HubError>)
      requires Valid()
      modifies this`journal, this`journalBytes, this`sequence, this`truncationDiagnostic,
               this`droppedDeltas, this`droppedEvents, this`emitted, subscribers
      ensures Valid()
      ensures old(completed) ==> r == Err(Completed)
      ensures !old(completed) ==> (r.Err? <==> old(sequence) >= maxSequence) && (r.Err? ==> r.error == HistoryExpired)
      ensures r.Err? ==> emitted == old(emitted) && State() == old(State())
      ensures old(emitted) <= emitted
      // every subscriber is offered exactly what was emitted, in order, and nothing else happens to it
      ensures forall s :: s in subscribers ==> s.Reader() == S.OfferedAll(size, old(s.Reader()), emitted[|old(emitted)|..])
      ensures r.Ok? ==>
                && r.value == Event(old(sequence) + 1, kind, Payload(json))
                && r.value.sequence <= maxSequence
                && old(emitted) + [r.value] <= emitted
                && (forall i :: |old(emitted)| < i < |emitted| ==> emitted[i].data.EventsDropped?)
      // nothing is given up while there is room
      ensures r.Ok? && Bytes(size, old(journal) + [r.value]) <= maxJournalBytes ==>
                journal == old(journal) + [r.value] && emitted == old(emitted) + [r.value]
      // otherwise something is given up and at once reported, by events beyond the one published
      ensures r.Ok? && Bytes(size, old(journal) + [r.value]) > maxJournalBytes ==>
                |emitted| > |old(emitted)| + 1 && droppedEvents > old(droppedEvents)
      // and what is given up goes in the documented order
      ensures r.Ok? ==> GivenUpInOrder(old(journal) + [r.value], journal)
    {
      hide Consistent, Reported, GivenUpInOrder, Subscriber.Follows, Bytes, S.Offered, S.OfferedAll;
      S.OfferedNothing(size);
      assert emitted[|emitted|..] == [];
      if completed {
        return Err(Completed);
      }
      if sequence >= maxSequence {
        return Err(HistoryExpired);
      }
      var event := Event(sequence + 1, kind, Payload(json));
      EmittingKeepsConsistent(State(), event);
      sequence := sequence + 1;
      Append(event);
      emitted := emitted + [event];
      assert State() == Emitted(old(State()), event);
      PushToSubscribers(event, old(emitted));
      assert journal[|journal| - 1] == event;
      CompactJournal();
      S.OfferedFirst(size, old(emitted), event, emitted);
      return Ok(event);
    }

    method Append(event: Event)
      modifies this`journal, this`journalBytes
      ensures journal == old(journal) + [event]
      ensures old(journalBytes) == Bytes(size, old(journal)) ==> journalBytes == Bytes(size, journal)
    {
      BytesAppend(size, journal, event);
      journal := journal + [event];
      journalBytes := journalBytes + size(event);
    }

    method PushToSubscribers(event: Event, ghost log: seq<Event>)
      requires emitted == log + [event] && event.sequence == initialSequence + |log| + 1 && !completed
      requires forall s :: s in subscribers ==> s.Follows(size, log, initialSequence, false)
      modifies subscribers
      ensures forall s :: s in subscribers ==> s.Follows(size, emitted, initialSequence, false)
      ensures forall s :: s in subscribers ==> s.Reader() == S.Offered(size, old(s.Reader()), event)
      ensures forall s :: s in subscribers ==>
                && (s.overflowed <==> old(s.overflowed) || old(s.queueBytes) + size(event) > s.maxQueueBytes)
                && s.queue == (if s.overflowed then old(s.queue) else old(s.queue) + [event])
                && s.received == old(s.received) && s.pending == old(s.pending)
    {
      hide Subscriber.Follows, S.Offered;
      var rest := subscribers;
      while rest != {}
        invariant rest <= subscribers
        invariant forall s :: s in rest ==> s.Follows(size, log, initialSequence, false) && unchanged(s)
        invariant forall s :: s in subscribers - rest ==>
                    s.Follows(size, emitted, initialSequence, false) && s.Reader() == S.Offered(size, old(s.Reader()), event)
        invariant forall s :: s in subscribers - rest ==>
                    && (s.overflowed <==> old(s.overflowed) || old(s.queueBytes) + size(event) > s.maxQueueBytes)
                    && s.queue == (if s.overflowed then old(s.queue) else old(s.queue) + [event])
                    && s.received == old(s.received) && s.pending == old(s.pending)
        decreases rest
      {
        var s :| s in rest;
        rest := rest - {s};
        s.Offer(event, size, log, initialSequence);
      }
    }

    // ---- Compaction ------------------------------------------------------------------

    method CompactJournal()
      requires Core() && Served() && !completed && Reported(State())
      requires exists e :: e in journal && e.data.Payload?
      modifies this`journal, this`journalBytes, this`sequence, this`truncationDiagnostic,
               this`droppedDeltas, this`droppedEvents, this`emitted, subscribers
      ensures Valid()
      ensures old(emitted) <= emitted
      ensures forall i :: |old(emitted)| <= i < |emitted| ==> emitted[i].data.EventsDropped?
      ensures forall s :: s in subscribers ==> s.Reader() == S.OfferedAll(size, old(s.Reader()), emitted[|old(emitted)|..])
      ensures old(journalBytes) <= maxJournalBytes ==> journal == old(journal) && emitted == old(emitted)
      ensures old(journalBytes) > maxJournalBytes ==> |emitted| > |old(emitted)| && droppedEvents > old(droppedEvents)
      ensures GivenUpInOrder(old(journal), journal)
    {
      hide Consistent, GivenUpInOrder, Reported, Payloads, Bytes, Evict, Subscriber.Follows, S.Offered, S.OfferedAll;
      NothingGivenUp(journal);
      S.OfferedNothing(size);
      assert emitted[|emitted|..] == [];
      var dropped := TrimToBudget(old(journal));
      if dropped == 0 {
        PayloadKeepsBudget(State());
        return;
      }
      dropped := ReportDropped(old(journal), |old(emitted)|);
      while dropped > 0
        invariant Core() && Served() && WithinBudget() && GivenUpInOrder(old(journal), journal)
        invariant old(emitted) <= emitted
        invariant forall i :: |old(emitted)| <= i < |emitted| ==> emitted[i].data.EventsDropped?
        invariant droppedEvents > old(droppedEvents) && |emitted| > |old(emitted)|
        invariant dropped == 0 ==> Reported(State())
        invariant forall s :: s in subscribers ==> s.Reader() == S.OfferedAll(size, old(s.Reader()), emitted[|old(emitted)|..])
        decreases Payloads(journal), dropped
      {
        dropped := ReportDropped(old(journal), |old(emitted)|);
      }
    }

    // One round of the loop: report what was dropped so far, then trim again, for the report
    // itself takes room.
    method ReportDropped(ghost before: seq<Event>, ghost base: nat) returns (dropped: nat)
      requires Core() && Served() && !completed && droppedEvents > 0 && GivenUpInOrder(before, journal)
      requires base <= |emitted|
      modifies this`journal, this`journalBytes, this`sequence, this`truncationDiagnostic,
               this`droppedDeltas, this`droppedEvents, this`emitted, subscribers
      ensures Core() && Served() && WithinBudget() && GivenUpInOrder(before, journal)
      ensures droppedEvents == old(droppedEvents) + dropped
      ensures Payloads(journal) == Payloads(old(journal)) - dropped
      ensures dropped == 0 ==> Reported(State())
      ensures |emitted| == |old(emitted)| + 1 && old(emitted) <= emitted && emitted[|old(emitted)|].data.EventsDropped?
      ensures forall s :: s in subscribers ==> s.Reader() == S.Offered(size, old(s.Reader()), emitted[|old(emitted)|])
      ensures forall r: S.Reader ::
                S.OfferedAll(size, r, emitted[base..]) == S.Offered(size, S.OfferedAll(size, r, old(emitted)[base..]), emitted[|old(emitted)|])
    {
      hide Consistent, GivenUpInOrder, Reported, Payloads, Bytes, Evict, Withdrawn, Subscriber.Follows, S.Offered, S.OfferedAll;
      ReplaceTruncationDiagnostic(before, base);
      dropped := TrimToBudget(before);
    }

    lemma PayloadKeepsBudget(r: Retention)
      requires Consistent(r) && exists e :: e in r.journal && e.data.Payload?
      ensures !(r.diagnostic.Some? && r.journal == [r.diagnostic.value])
    {
    }

    method TrimToBudget(ghost before: seq<Event>) returns (dropped: nat)
      requires Core() && GivenUpInOrder(before, journal)
      modifies this`journal, this`journalBytes, this`droppedEvents, this`droppedDeltas
      ensures Core() && WithinBudget() && GivenUpInOrder(before, journal)
      // exactly as many victims as the budget needs, in eviction order
      ensures journal == Evict(old(journal), truncationDiagnostic, dropped)
      ensures forall k :: 0 <= k < dropped ==> Bytes(size, Evict(old(journal), truncationDiagnostic, k)) > maxJournalBytes
      ensures droppedEvents == old(droppedEvents) + dropped
      ensures Payloads(journal) == Payloads(old(journal)) - dropped
      ensures dropped == 0 ==> State() == old(State())
      ensures dropped > 0 ==> old(journalBytes) > maxJournalBytes
    {
      hide Consistent, GivenUpInOrder, Reported, Evict, VictimIndex, RemoveAt, Payloads;
      EvictNothing(journal, truncationDiagnostic);
      dropped := 0;
      while journalBytes > maxJournalBytes
        invariant Core()
        invariant journal == Evict(old(journal), truncationDiagnostic, dropped)
        invariant forall k :: 0 <= k < dropped ==> Bytes(size, Evict(old(journal), truncationDiagnostic, k)) > maxJournalBytes
        invariant droppedEvents == old(droppedEvents) + dropped
        invariant Payloads(journal) == Payloads(old(journal)) - dropped
        invariant dropped == 0 ==> State() == old(State())
        invariant dropped > 0 ==> old(journalBytes) > maxJournalBytes
        decreases |journal|
      {
        var index := VictimIndex(journal, truncationDiagnostic);
        if index < 0 {
          OnlyDiagnosticLeft(State());
          break;
        }
        EvictStep(old(journal), truncationDiagnostic, dropped, index);
        DropAt(index);
        dropped := dropped + 1;
      }
      TrimmingKeepsOrder(before, old(State()), dropped);
    }

    method DropAt(index: nat)
      requires Core() && index < |journal| && IsOrdinary(journal[index], truncationDiagnostic)
      modifies this`journal, this`journalBytes, this`droppedEvents, this`droppedDeltas
      ensures Core() && State() == Dropped(old(State()), index)
      ensures Payloads(journal) == Payloads(old(journal)) - 1
    {
      var removed := journal[index];
      DroppingKeepsConsistent(State(), index);
      BytesRemoveAt(size, journal, index);
      journal := RemoveAt(journal, index);
      journalBytes := journalBytes - size(removed);
      droppedEvents := droppedEvents + 1;
      if IsDelta(removed) {
        droppedDeltas := droppedDeltas + 1;
      }
      assert State() == Dropped(old(State()), index);
    }

    method ReplaceTruncationDiagnostic(ghost before: seq<Event>, ghost base: nat)
      requires Core() && Served() && !completed && droppedEvents > 0 && GivenUpInOrder(before, journal)
      requires base <= |emitted|
      modifies this`journal, this`journalBytes, this`sequence, this`truncationDiagnostic, this`emitted, subscribers
      ensures Core() && Served() && GivenUpInOrder(before, journal)
      ensures Reported(State()) && State() == Diagnosed(old(State()))
      ensures Payloads(journal) == Payloads(old(journal))
      // every subscriber is offered the diagnostic, and nothing else happens to it
      ensures emitted == old(emitted) + [truncationDiagnostic.value]
      ensures forall s :: s in subscribers ==> s.Reader() == S.Offered(size, old(s.Reader()), truncationDiagnostic.value)
      ensures forall r: S.Reader ::
                S.OfferedAll(size, r, emitted[base..]) == S.Offered(size, S.OfferedAll(size, r, old(emitted)[base..]), truncationDiagnostic.value)
    {
      hide Consistent, GivenUpInOrder, Reported, IndexOf, Bytes, Payloads, Withdrawn, Subscriber.Follows, S.Offered, S.OfferedAll;
      DiagnosingReports(State());
      DiagnosingKeepsOrder(before, State());
      WithdrawDiagnostic();
      var diagnostic := Event(sequence + 1, "diagnostic", EventsDropped(droppedEvents, droppedDeltas));
      sequence := sequence + 1;
      truncationDiagnostic := Some(diagnostic);
      Append(diagnostic);
      emitted := emitted + [diagnostic];
      assert State() == Diagnosed(old(State()));
      PushToSubscribers(diagnostic, old(emitted));
      S.OfferedNext(size, old(emitted), base, diagnostic);
    }

    method WithdrawDiagnostic()
      modifies this`journal, this`journalBytes
      ensures journal == Withdrawn(old(State()))
      ensures old(journalBytes) == Bytes(size, old(journal)) ==> journalBytes == Bytes(size, journal)
    {
      if truncationDiagnostic.Some? {
        var index := IndexOf(journal, truncationDiagnostic.value);
        if index >= 0 {
          BytesRemoveAt(size, journal, index);
          journalBytes := journalBytes - size(journal[index]);
          journal := RemoveAt(journal, index);
        }
      }
    }

    // ---- Completion and expiry -------------------------------------------------------

    method Complete()
      requires Valid()
      modifies this`completed, subscribers
      ensures Valid() && completed
      ensures forall s :: s in subscribers ==> s.Reader() == if old(completed) then old(s.Reader()) else S.Woken(old(s.Reader()))
      ensures forall s :: s in subscribers ==> !old(completed) ==> !s.asleep
    {
      hide Consistent, Reported, Bytes, Subscriber.Follows;
      if completed {
        return;
      }
      var rest := subscribers;
      while rest != {}
        invariant rest <= subscribers
        invariant forall s :: s in rest ==> s.Follows(size, emitted, initialSequence, false) && unchanged(s)
        invariant forall s :: s in subscribers - rest ==>
                    s.Follows(size, emitted, initialSequence, true) && s.Reader() == S.Woken(old(s.Reader()))
        decreases rest
        modifies subscribers
      {
        var s :| s in rest;
        rest := rest - {s};
        s.Wake(size, emitted, initialSequence);
      }
      completed := true;
    }

    method Expire()
      modifies this`expired, this`journal, this`journalBytes
      ensures expired && journal == [] && journalBytes == 0
      ensures old(Valid()) ==> Valid()
    {
      expired := true;
      journal := [];
      journalBytes := 0;
    }

    // ---- Subscription ----------------------------------------------------------------

    /**
      The generator's prologue, run by its first resumption. The cursor is optional; a
      missing cursor reads from the beginning without a history check.
     */
    method Open(afterSequence: Option<int>) returns (r: Result<Subscriber, HubError>)
      requires Valid()
      modifies this`subscribers
      ensures Valid()
      ensures r.Err? ==> subscribers == old(subscribers)
      ensures expired ==> r == Err(HistoryExpired)
      ensures !expired && afterSequence.None? ==> r.Ok?
      ensures !expired && afterSequence.Some? ==>
                && (r == Err(InvalidCursor) <==> afterSequence.value < 0)
                && (r == Err(CursorAhead) <==> afterSequence.value > sequence)
      // history is refused exactly on an expired hub, and for a cursor from before what is retained
      ensures r == Err(HistoryExpired) <==>
                expired || (afterSequence.Some? && 0 <= afterSequence.value && journal != [] && afterSequence.value < journal[0].sequence - 1)
      ensures r.Err? ==> r.error in {HistoryExpired, InvalidCursor, CursorAhead}
      // such a cursor is from before this hub, or its next event is gone
      ensures !expired && r == Err(HistoryExpired) && afterSequence.value >= initialSequence ==>
                afterSequence.value < sequence && emitted[afterSequence.value - initialSequence] !in journal
      ensures r.Ok? ==>
                && fresh(r.value) && subscribers == old(subscribers) + {r.value}
                && r.value.Reader() == S.Joining(maxSubscriberBytes, After(journal, Cursor(afterSequence)), |emitted|)
                && NoSilentGap(r.value.snapshot, emitted, Cursor(afterSequence), truncationDiagnostic)
      // the replay is what is retained from behind the cursor, in order
      ensures r.Ok? ==>
                && (forall e :: e in r.value.pending <==> e in journal && (afterSequence.Some? ==> e.sequence > afterSequence.value))
                && (forall i, k :: 0 <= i < k < |r.value.pending| ==> r.value.pending[i].sequence < r.value.pending[k].sequence)
                && r.value.queue == [] && r.value.received == [] && !r.value.overflowed
    {
      hide Consistent, Reported, NoSilentGap, Bytes, SubLog, After;
      BeforeRetainedIsBehind(afterSequence);
      if expired {
        return Err(HistoryExpired);
      }
      if afterSequence.Some? && afterSequence.value < 0 {
        return Err(InvalidCursor);
      }
      if afterSequence.Some? && afterSequence.value > sequence {
        return Err(CursorAhead);
      }
      if afterSequence.Some? && journal != [] && afterSequence.value < journal[0].sequence - 1 {
        RefusedHistoryIsGone(State(), afterSequence.value);
        return Err(HistoryExpired);
      }
      var snapshot := After(journal, Cursor(afterSequence));
      ReplayHasNoSilentGap(State(), Cursor(afterSequence));
      ReplayIsSubLog(State(), Cursor(afterSequence));
      ReplayIsOrdered(Cursor(afterSequence));
      var s := new Subscriber(maxSubscriberBytes, sequence, snapshot, size, emitted, initialSequence, completed);
      subscribers := subscribers + {s};
      return Ok(s);
    }

    lemma ReplayIsOrdered(cursor: nat)
      requires Core()
      ensures forall e :: e in journal ==> e.sequence > 0
      ensures Sorted(After(journal, cursor))
    {
      AfterSorted(journal, cursor);
    }

    // The cursor asks for events older than the oldest retained one.
    predicate BeforeRetained(afterSequence: Option<int>)
      reads this
    {
      afterSequence.Some? && 0 <= afterSequence.value && journal != [] && afterSequence.value < journal[0].sequence - 1
    }

    lemma BeforeRetainedIsBehind(afterSequence: Option<int>)
      requires Core()
      ensures BeforeRetained(afterSequence) ==> afterSequence.value < sequence
    {
      hide Consistent;
      if BeforeRetained(afterSequence) {
        RefusedHistoryIsGone(State(), afterSequence.value);
      }
    }

    static function Cursor(afterSequence: Option<int>): nat {
      if afterSequence.Some? && afterSequence.value >= 0 then afterSequence.value else 0
    }

    /** One resumption of a subscriber's generator, up to its next yield, end or suspension. */
    method Next(s: Subscriber) returns (r: S.Pull)
      requires Valid() && s in subscribers
      modifies this`subscribers, s
      ensures Valid()
      ensures r == S.PullResult(old(s.Reader()), completed)
      ensures s.Reader() == S.Pulled(old(s.Reader()), completed)
      ensures subscribers == if r.Overflow? || r.End? then old(subscribers) - {s} else old(subscribers)
      // overflow and completion are reported only once everything accepted was delivered
      ensures s.joined + s.accepted <= |emitted|
      ensures s.received + s.pending + s.queue == s.snapshot + emitted[s.joined..s.joined + s.accepted]
      ensures r.Overflow? ==> s.received == s.snapshot + emitted[s.joined..s.joined + s.accepted]
      ensures r.End? || r.Waiting? ==> s.received == s.snapshot + emitted[s.joined..]
      ensures old(s.pending + s.queue) != [] ==>
                && r == S.Yield(old(s.pending + s.queue)[0]) && s.received == old(s.received) + [old(s.pending + s.queue)[0]]
                && s.pending + s.queue == old(s.pending + s.queue)[1..]
      ensures old(s.pending + s.queue) == [] ==>
                r == (if old(s.overflowed) then S.Overflow else if completed then S.End else S.Waiting) && s.received == old(s.received)
      ensures s.overflowed == old(s.overflowed)
    {
      hide Consistent, Reported, Bytes, S.Pulled, S.PullResult, S.Follows;
      S.PullExactly(s.Reader(), completed);
      r := s.Resume(size, emitted, initialSequence, completed);
      if r.Overflow? || r.End? {
        subscribers := subscribers - {s};
      }
      FollowsWithin(s);
    }

    /** The consumer stops early: its generator is closed at a yield. */
    method Close(s: Subscriber)
      requires Valid()
      modifies this`subscribers
      ensures Valid() && subscribers == old(subscribers) - {s}
    {
      subscribers := subscribers - {s};
    }

    lemma FollowsWithin(s: Subscriber)
      requires s.Follows(size, emitted, initialSequence, completed)
      ensures s.joined + s.accepted <= |emitted|
      ensures s.received + s.pending + s.queue == s.snapshot + emitted[s.joined..s.joined + s.accepted]
      ensures !s.overflowed ==> s.joined + s.accepted == |emitted|
      ensures s.pending == [] && s.queue == [] ==> s.received == s.snapshot + emitted[s.joined..s.joined + s.accepted]
    {
      assert s.received + [] + [] == s.received;
    }
  }
}
