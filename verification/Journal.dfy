/**
  The value-level theory of the retained event journal: sizes, counts, and the order in
  which retained events are given up when the journal is over its byte budget.
 */
module Journal {
  import opened Wrappers

  /** A published payload, or the totals carried by a truncation diagnostic of the hub itself. */
  datatype Data =
    | Payload(json: string)
    | EventsDropped(droppedEvents: nat, droppedDeltas: nat)

  datatype Event = Event(sequence: nat, kind: string, data: Data)

  // Serialised size of an event; JSON is not modelled, so every theorem holds for any sizes.
  type Sizer = Event -> nat

  predicate EndsWith(s: string, suffix: string) {
    |suffix| <= |s| && s[|s| - |suffix|..] == suffix
  }

  predicate IsDelta(e: Event) {
    EndsWith(e.kind, ".delta")
  }

  predicate IsIncremental(e: Event) {
    IsDelta(e) || e.kind == "tool.progress"
  }

  // Is `e` one of the events that compaction may give up?
  predicate IsOrdinary(e: Event, diagnostic: Option<Event>) {
    diagnostic != Some(e)
  }

  function RemoveAt<T>(s: seq<T>, i: nat): (r: seq<T>)
    requires i < |s|
    ensures |r| == |s| - 1
  {
    s[..i] + s[i + 1..]
  }

  /** The first index satisfying `p`, or -1. */
  function FindIndex<T>(s: seq<T>, p: T -> bool): (r: int)
    ensures -1 <= r < |s|
    ensures r >= 0 ==> p(s[r]) && forall i :: 0 <= i < r ==> !p(s[i])
    ensures r < 0 ==> forall i :: 0 <= i < |s| ==> !p(s[i])
  {
    if s == [] then -1
    else if p(s[0]) then 0
    else
      var rest := FindIndex(s[1..], p);
      assert forall i :: 1 <= i < |s| ==> s[i] == s[1..][i - 1];
      if rest < 0 then -1 else rest + 1
  }

  function IndexOf<T(==)>(s: seq<T>, x: T): (r: int)
    ensures -1 <= r < |s|
    ensures r >= 0 ==> s[r] == x
    ensures r < 0 ==> x !in s
  {
    if s == [] then -1
    else if s[0] == x then 0
    else
      var rest := IndexOf(s[1..], x);
      assert s == [s[0]] + s[1..];
      if rest < 0 then -1 else rest + 1
  }

  // ---- Sizes and counts -------------------------------------------------------------

  function Bytes(size: Sizer, j: seq<Event>): nat {
    if j == [] then 0 else size(j[0]) + Bytes(size, j[1..])
  }

  function Count(p: Event -> bool, j: seq<Event>): nat {
    if j == [] then 0 else (if p(j[0]) then 1 else 0) + Count(p, j[1..])
  }

  lemma {:induction false} BytesConcat(size: Sizer, a: seq<Event>, b: seq<Event>)
    ensures Bytes(size, a + b) == Bytes(size, a) + Bytes(size, b)
  {
    if a == [] {
      assert a + b == b;
    } else {
      BytesConcat(size, a[1..], b);
      assert (a + b)[1..] == a[1..] + b;
    }
  }

  lemma BytesAppend(size: Sizer, j: seq<Event>, e: Event)
    ensures Bytes(size, j + [e]) == Bytes(size, j) + size(e)
  {
    BytesConcat(size, j, [e]);
  }

  lemma BytesRemoveAt(size: Sizer, j: seq<Event>, i: nat)
    requires i < |j|
    ensures Bytes(size, RemoveAt(j, i)) == Bytes(size, j) - size(j[i])
  {
    BytesConcat(size, j[..i], j[i + 1..]);
    BytesConcat(size, j[..i], j[i..]);
    assert j == j[..i] + j[i..];
    assert j[i..][1..] == j[i + 1..];
  }

  lemma {:induction false} CountConcat(p: Event -> bool, a: seq<Event>, b: seq<Event>)
    ensures Count(p, a + b) == Count(p, a) + Count(p, b)
  {
    if a == [] {
      assert a + b == b;
    } else {
      CountConcat(p, a[1..], b);
      assert (a + b)[1..] == a[1..] + b;
    }
  }

  lemma CountAppend(p: Event -> bool, j: seq<Event>, e: Event)
    ensures Count(p, j + [e]) == Count(p, j) + (if p(e) then 1 else 0)
  {
    CountConcat(p, j, [e]);
  }

  lemma CountRemoveAt(p: Event -> bool, j: seq<Event>, i: nat)
    requires i < |j|
    ensures Count(p, RemoveAt(j, i)) == Count(p, j) - (if p(j[i]) then 1 else 0)
  {
    CountConcat(p, j[..i], j[i + 1..]);
    CountConcat(p, j[..i], j[i..]);
    assert j == j[..i] + j[i..];
    assert j[i..][1..] == j[i + 1..];
  }

  // Number of payload events, and number of payload events that are deltas.
  function Payloads(j: seq<Event>): nat {
    Count((e: Event) => e.data.Payload?, j)
  }

  function Deltas(j: seq<Event>): nat {
    Count((e: Event) => e.data.Payload? && IsDelta(e), j)
  }

  // ---- The emitted log and its retained part ---------------------------------------

  ghost predicate Sorted(j: seq<Event>) {
    forall i, k :: 0 <= i < k < |j| ==> j[i].sequence < j[k].sequence
  }

  // A log numbers its events without gaps after `initial`.
  ghost predicate IsLog(log: seq<Event>, initial: nat) {
    forall i :: 0 <= i < |log| ==> log[i].sequence == initial + 1 + i
  }

  ghost predicate InLog(e: Event, log: seq<Event>, initial: nat) {
    initial < e.sequence <= initial + |log| && log[e.sequence - initial - 1] == e
  }

  ghost predicate SubLog(j: seq<Event>, log: seq<Event>, initial: nat) {
    && Sorted(j)
    && forall e :: e in j ==> InLog(e, log, initial)
  }

  // Everything emitted after cursor `from` is still in `j`.
  ghost predicate TailRetained(j: seq<Event>, log: seq<Event>, from: int) {
    forall e :: e in log && e.sequence > from ==> e in j
  }

  lemma FirstIsOldest(j: seq<Event>)
    requires Sorted(j) && j != []
    ensures forall e :: e in j ==> j[0].sequence <= e.sequence
  {
  }

  lemma SortedRemoveAt(j: seq<Event>, i: nat)
    requires i < |j| && Sorted(j)
    ensures Sorted(RemoveAt(j, i))
    ensures forall e :: e in RemoveAt(j, i) <==> e in j && e != j[i]
  {
    var r := RemoveAt(j, i);
    forall e | e in j && e != j[i] ensures e in r {
      var k :| 0 <= k < |j| && j[k] == e;
      assert e == if k < i then r[k] else r[k - 1];
    }
    forall e | e in r ensures e in j && e != j[i] {
      var k :| 0 <= k < |r| && r[k] == e;
      assert e == if k < i then j[k] else j[k + 1];
    }
  }

  lemma SortedAppend(j: seq<Event>, e: Event)
    requires Sorted(j) && (forall f :: f in j ==> f.sequence < e.sequence)
    ensures Sorted(j + [e])
  {
    forall i, k | 0 <= i < k < |j + [e]| ensures (j + [e])[i].sequence < (j + [e])[k].sequence {
      assert (j + [e])[i] == j[i] && j[i] in j;
    }
  }

  // Appending one event to the log and to its retained part.
  lemma EmitAppends(j: seq<Event>, log: seq<Event>, initial: nat, e: Event)
    requires IsLog(log, initial) && SubLog(j, log, initial)
    requires e.sequence == initial + |log| + 1
    ensures IsLog(log + [e], initial) && SubLog(j + [e], log + [e], initial)
    ensures e !in j
  {
    SortedAppend(j, e);
    forall f | f in j + [e] ensures InLog(f, log + [e], initial) {
      if f in j {
        assert InLog(f, log, initial);
      }
    }
  }

  // ---- Eviction order --------------------------------------------------------------

  // Index of the next event to give up: the oldest incremental one, else the oldest one;
  // the current diagnostic is never a candidate.
  function VictimIndex(j: seq<Event>, diagnostic: Option<Event>): (r: int)
    ensures -1 <= r < |j|
    ensures r >= 0 ==> IsOrdinary(j[r], diagnostic)
    ensures r < 0 ==> forall e :: e in j ==> !IsOrdinary(e, diagnostic)
  {
    var incremental := FindIndex(j, (e: Event) => IsOrdinary(e, diagnostic) && IsIncremental(e));
    if incremental >= 0 then incremental
    else FindIndex(j, (e: Event) => IsOrdinary(e, diagnostic))
  }

  // The journal after giving up (at most) `k` events, one victim at a time.
  function Evict(j: seq<Event>, diagnostic: Option<Event>, k: nat): seq<Event> {
    if k == 0 then j
    else
      var before := Evict(j, diagnostic, k - 1);
      var victim := VictimIndex(before, diagnostic);
      if victim < 0 then before else RemoveAt(before, victim)
  }

  // The documented priority: incremental events go first, and older before newer.
  predicate GoesBefore(e: Event, f: Event) {
    || (IsIncremental(e) && !IsIncremental(f))
    || (IsIncremental(e) == IsIncremental(f) && e.sequence < f.sequence)
  }

  // Incremental are the kinds that end in `.delta`, and `tool.progress`.
  lemma PriorityExactly(e: Event, f: Event)
    ensures IsDelta(e) <==> exists stem :: e.kind == stem + ".delta"
    ensures IsIncremental(e) <==> e.kind == "tool.progress" || exists stem :: e.kind == stem + ".delta"
    ensures IsIncremental(f) && !IsIncremental(e) ==> !GoesBefore(e, f)
    ensures IsIncremental(e) && !IsIncremental(f) ==> GoesBefore(e, f)
    ensures IsIncremental(e) == IsIncremental(f) ==> (GoesBefore(e, f) <==> e.sequence < f.sequence)
  {
    if IsDelta(e) {
      assert e.kind == e.kind[..|e.kind| - 6] + ".delta";
    }
    if stem :| e.kind == stem + ".delta" {
      assert |".delta"| == 6 && e.kind[|e.kind| - 6..] == ".delta";
    }
  }

  lemma VictimGoesFirst(j: seq<Event>, diagnostic: Option<Event>, e: Event)
    requires Sorted(j) && VictimIndex(j, diagnostic) >= 0
    requires e in j && IsOrdinary(e, diagnostic) && e != j[VictimIndex(j, diagnostic)]
    ensures GoesBefore(j[VictimIndex(j, diagnostic)], e)
  {
    var v := VictimIndex(j, diagnostic);
    var k :| 0 <= k < |j| && j[k] == e;
    var incremental := FindIndex(j, (x: Event) => IsOrdinary(x, diagnostic) && IsIncremental(x));
    if incremental >= 0 {
      if IsIncremental(e) {
        assert v < k;
      }
    } else {
      assert !IsIncremental(j[k]) && !IsIncremental(j[v]);
      assert v < k;
    }
  }

  // The ordinary events lost between `j` and `rest` all precede the ordinary ones left.
  ghost predicate LostInOrder(j: seq<Event>, rest: seq<Event>, diagnostic: Option<Event>) {
    forall dropped, kept ::
      dropped in j && dropped !in rest && kept in rest && IsOrdinary(kept, diagnostic)
      ==> GoesBefore(dropped, kept)
  }

  lemma LosingOneMore(j: seq<Event>, rest: seq<Event>, diagnostic: Option<Event>, victim: nat)
    requires Sorted(rest) && LostInOrder(j, rest, diagnostic)
    requires victim < |rest| && victim == VictimIndex(rest, diagnostic)
    ensures Sorted(RemoveAt(rest, victim))
    ensures forall e :: e in RemoveAt(rest, victim) <==> e in rest && e != rest[victim]
    ensures LostInOrder(j, RemoveAt(rest, victim), diagnostic)
  {
    hide VictimIndex, GoesBefore;
    SortedRemoveAt(rest, victim);
    var less := RemoveAt(rest, victim);
    hide RemoveAt;
    forall dropped, kept | dropped in j && dropped !in less && kept in less && IsOrdinary(kept, diagnostic)
      ensures GoesBefore(dropped, kept)
    {
      if dropped in rest {
        VictimGoesFirst(rest, diagnostic, kept);
      }
    }
  }

  // Whatever is dropped precedes, in the documented priority, whatever ordinary event stays.
  lemma {:induction false} EvictionRespectsPriority(j: seq<Event>, diagnostic: Option<Event>, k: nat)
    requires Sorted(j)
    ensures Sorted(Evict(j, diagnostic, k))
    ensures forall e :: e in Evict(j, diagnostic, k) ==> e in j
    ensures diagnostic.Some? && diagnostic.value in j ==> diagnostic.value in Evict(j, diagnostic, k)
    ensures LostInOrder(j, Evict(j, diagnostic, k), diagnostic)
  {
    hide Sorted, LostInOrder, VictimIndex, RemoveAt;
    if k == 0 {
      LosingNothing(j, diagnostic);
    } else {
      EvictionRespectsPriority(j, diagnostic, k - 1);
      var before := Evict(j, diagnostic, k - 1);
      var victim := VictimIndex(before, diagnostic);
      if victim >= 0 {
        LosingOneMore(j, before, diagnostic, victim);
      }
    }
  }

  lemma LosingNothing(j: seq<Event>, diagnostic: Option<Event>)
    ensures LostInOrder(j, j, diagnostic)
  {
  }

  // ---- Retention: the journal together with what was lost -----------------------------

  // Everything about a hub's history except its readers.
  datatype Retention = Retention(
    journal: seq<Event>, log: seq<Event>, initial: nat, maxSequence: nat, expired: bool,
    diagnostic: Option<Event>, droppedEvents: nat, droppedDeltas: nat)

  // True at every moment, also in the middle of a publication.
  ghost predicate Consistent(r: Retention) {
    && IsLog(r.log, r.initial)
    && SubLog(r.journal, r.log, r.initial)
    && (r.diagnostic.Some? ==> r.diagnostic.value.data.EventsDropped? && InLog(r.diagnostic.value, r.log, r.initial))
    && (forall e :: e in r.journal && e.data.EventsDropped? ==> r.diagnostic == Some(e))
    && (forall e :: e in r.log && e.data.Payload? ==> e.sequence <= r.maxSequence)
    && (!r.expired ==> Accounted(r))
  }

  // Conservation: every payload ever published is retained or counted as dropped.
  ghost predicate Accounted(r: Retention) {
    && Payloads(r.log) == Payloads(r.journal) + r.droppedEvents
    && Deltas(r.log) == Deltas(r.journal) + r.droppedDeltas
    && (r.diagnostic.Some? ==> r.diagnostic.value in r.journal)
    && (r.diagnostic.None? && r.droppedEvents == 0 ==> TailRetained(r.journal, r.log, -1))
  }

  // What readers rely on between publications: the one diagnostic carries the current
  // totals, and everything emitted after it is still there.
  ghost predicate Reported(r: Retention) {
    match r.diagnostic
    case None => r.droppedEvents == 0
    case Some(d) =>
      && d.data == EventsDropped(r.droppedEvents, r.droppedDeltas)
      && r.droppedEvents > 0
      && (!r.expired ==> TailRetained(r.journal, r.log, d.sequence))
  }

  // Between publications every payload ever published is retained or counted, and a diagnostic,
  // if there is one, carries exactly the counts.
  lemma NothingGoesUncounted(r: Retention)
    requires Consistent(r) && Reported(r) && !r.expired
    ensures Payloads(r.log) == Payloads(r.journal) + r.droppedEvents
    ensures Deltas(r.log) == Deltas(r.journal) + r.droppedDeltas
    ensures r.diagnostic.Some? ==>
              && r.diagnostic.value.data.EventsDropped? && r.diagnostic.value in r.journal
              && Payloads(r.log) == Payloads(r.journal) + r.diagnostic.value.data.droppedEvents
              && Deltas(r.log) == Deltas(r.journal) + r.diagnostic.value.data.droppedDeltas
    ensures r.diagnostic.None? ==> Payloads(r.log) == Payloads(r.journal) && forall e :: e in r.log ==> e in r.journal
  {
    hide Payloads, Deltas, SubLog, IsLog;
  }

  function Emitted(r: Retention, e: Event): Retention {
    r.(journal := r.journal + [e], log := r.log + [e])
  }

  function Dropped(r: Retention, i: nat): Retention
    requires i < |r.journal|
  {
    r.(journal := RemoveAt(r.journal, i), droppedEvents := r.droppedEvents + 1,
       droppedDeltas := r.droppedDeltas + if IsDelta(r.journal[i]) then 1 else 0)
  }

  // The journal without the current diagnostic.
  function Withdrawn(r: Retention): seq<Event> {
    if r.diagnostic.None? then r.journal
    else
      var index := IndexOf(r.journal, r.diagnostic.value);
      if index < 0 then r.journal else RemoveAt(r.journal, index)
  }

  function Diagnosed(r: Retention): Retention {
    var d := Event(r.initial + |r.log| + 1, "diagnostic", EventsDropped(r.droppedEvents, r.droppedDeltas));
    r.(journal := Withdrawn(r) + [d], log := r.log + [d], diagnostic := Some(d))
  }

  lemma PayloadsAppend(j: seq<Event>, e: Event)
    ensures Payloads(j + [e]) == Payloads(j) + (if e.data.Payload? then 1 else 0)
    ensures Deltas(j + [e]) == Deltas(j) + (if e.data.Payload? && IsDelta(e) then 1 else 0)
  {
    CountAppend((x: Event) => x.data.Payload?, j, e);
    CountAppend((x: Event) => x.data.Payload? && IsDelta(x), j, e);
  }

  lemma PayloadsRemoveAt(j: seq<Event>, i: nat)
    requires i < |j|
    ensures Payloads(RemoveAt(j, i)) == Payloads(j) - (if j[i].data.Payload? then 1 else 0)
    ensures Deltas(RemoveAt(j, i)) == Deltas(j) - (if j[i].data.Payload? && IsDelta(j[i]) then 1 else 0)
  {
    CountRemoveAt((x: Event) => x.data.Payload?, j, i);
    CountRemoveAt((x: Event) => x.data.Payload? && IsDelta(x), j, i);
  }

  lemma EmittingKeepsConsistent(r: Retention, e: Event)
    requires Consistent(r) && e.sequence == r.initial + |r.log| + 1 && e.sequence <= r.maxSequence && e.data.Payload?
    ensures Consistent(Emitted(r, e))
    ensures Reported(r) ==> Reported(Emitted(r, e))
  {
    EmitAppends(r.journal, r.log, r.initial, e);
    PayloadsAppend(r.journal, e);
    PayloadsAppend(r.log, e);
  }

  lemma DroppingKeepsConsistent(r: Retention, i: nat)
    requires Consistent(r) && i < |r.journal| && IsOrdinary(r.journal[i], r.diagnostic)
    ensures Consistent(Dropped(r, i))
    ensures Payloads(Dropped(r, i).journal) == Payloads(r.journal) - 1
  {
    assert r.journal[i] in r.journal;
    SortedRemoveAt(r.journal, i);
    PayloadsRemoveAt(r.journal, i);
  }

  lemma WithdrawingKeepsPayloads(r: Retention)
    requires Consistent(r)
    ensures Sorted(Withdrawn(r))
    ensures forall e :: e in Withdrawn(r) <==> e in r.journal && r.diagnostic != Some(e)
    ensures Payloads(Withdrawn(r)) == Payloads(r.journal) && Deltas(Withdrawn(r)) == Deltas(r.journal)
  {
    if r.diagnostic.Some? {
      var index := IndexOf(r.journal, r.diagnostic.value);
      if index >= 0 {
        SortedRemoveAt(r.journal, index);
        PayloadsRemoveAt(r.journal, index);
      }
    }
  }

  lemma DiagnosingReports(r: Retention)
    requires Consistent(r) && r.droppedEvents > 0
    ensures Consistent(Diagnosed(r)) && Reported(Diagnosed(r))
    ensures Payloads(Diagnosed(r).journal) == Payloads(r.journal)
  {
    var d := Diagnosed(r).diagnostic.value;
    hide Withdrawn, Payloads, Deltas;
    WithdrawingKeepsPayloads(r);
    EmitAppends(Withdrawn(r), r.log, r.initial, d);
    PayloadsAppend(Withdrawn(r), d);
    PayloadsAppend(r.log, d);
  }

  lemma FirstTwoDiffer(j: seq<Event>)
    requires Sorted(j) && |j| > 1
    ensures j[0] in j && j[1] in j && j[0] != j[1]
  {
    assert j[0].sequence < j[1].sequence;
  }

  // Over budget only because the diagnostic alone exceeds it.
  lemma OnlyDiagnosticLeft(r: Retention)
    requires Consistent(r) && forall e :: e in r.journal ==> !IsOrdinary(e, r.diagnostic)
    ensures r.journal == [] || (r.diagnostic.Some? && r.journal == [r.diagnostic.value])
  {
    if r.journal != [] {
      assert r.journal[0] in r.journal;
      if |r.journal| > 1 {
        FirstTwoDiffer(r.journal);
        assert false;
      }
    }
  }

  // Payload events missing from `after` come before every payload event left in it.
  ghost predicate GivenUpInOrder(before: seq<Event>, after: seq<Event>) {
    && (forall e :: e in after && e.data.Payload? ==> e in before)
    && (forall dropped, kept ::
          dropped in before && dropped.data.Payload? && dropped !in after && kept in after && kept.data.Payload?
          ==> GoesBefore(dropped, kept))
  }

  lemma DiagnosingKeepsOrder(before: seq<Event>, r: Retention)
    requires Consistent(r) && GivenUpInOrder(before, r.journal)
    ensures GivenUpInOrder(before, Diagnosed(r).journal)
  {
    hide Withdrawn;
    WithdrawingKeepsPayloads(r);
  }

  lemma NothingGivenUp(j: seq<Event>)
    ensures GivenUpInOrder(j, j)
  {
  }

  lemma EvictNothing(j: seq<Event>, diagnostic: Option<Event>)
    ensures Evict(j, diagnostic, 0) == j
  {
  }

  lemma EvictStep(j: seq<Event>, diagnostic: Option<Event>, k: nat, victim: nat)
    requires victim == VictimIndex(Evict(j, diagnostic, k), diagnostic)
    ensures Evict(j, diagnostic, k + 1) == RemoveAt(Evict(j, diagnostic, k), victim)
  {
  }

  lemma TrimmingKeepsOrder(before: seq<Event>, r: Retention, k: nat)
    requires Consistent(r) && GivenUpInOrder(before, r.journal)
    ensures GivenUpInOrder(before, Evict(r.journal, r.diagnostic, k))
  {
    EvictionRespectsPriority(r.journal, r.diagnostic, k);
    var after := Evict(r.journal, r.diagnostic, k);
    forall dropped, kept |
      dropped in before && dropped.data.Payload? && dropped !in after && kept in after && kept.data.Payload?
      ensures GoesBefore(dropped, kept)
    {
      if dropped in r.journal {
        assert IsOrdinary(kept, r.diagnostic);
      }
    }
  }

  // ---- What a cursor sees ----------------------------------------------------------

  function After(j: seq<Event>, cursor: nat): (r: seq<Event>)
    ensures forall e :: e in r <==> e in j && e.sequence > cursor
  {
    if j == [] then []
    else (if j[0].sequence > cursor then [j[0]] else []) + After(j[1..], cursor)
  }

  lemma {:induction false} AfterSorted(j: seq<Event>, cursor: nat)
    requires Sorted(j)
    ensures Sorted(After(j, cursor))
  {
    if j != [] {
      AfterSorted(j[1..], cursor);
      var rest := After(j[1..], cursor);
      if j[0].sequence > cursor {
        forall i, k | 0 <= i < k < |[j[0]] + rest|
          ensures ([j[0]] + rest)[i].sequence < ([j[0]] + rest)[k].sequence
        {
          if i == 0 {
            assert ([j[0]] + rest)[k] in j[1..];
          }
        }
      }
    }
  }

  // A replay hides nothing silently: it is complete, or it shows the current diagnostic.
  ghost predicate NoSilentGap(shown: seq<Event>, log: seq<Event>, cursor: nat, diagnostic: Option<Event>) {
    || (forall e :: e in log && e.sequence > cursor ==> e in shown)
    || (diagnostic.Some? && diagnostic.value in shown)
  }

  lemma ReplayHasNoSilentGap(r: Retention, cursor: nat)
    requires Consistent(r) && Reported(r) && !r.expired
    ensures NoSilentGap(After(r.journal, cursor), r.log, cursor, r.diagnostic)
  {
    var shown := After(r.journal, cursor);
    if r.diagnostic.Some? && cursor < r.diagnostic.value.sequence {
      assert r.diagnostic.value in shown;
    } else {
      forall e | e in r.log && e.sequence > cursor ensures e in shown {
        assert e in r.journal;
      }
    }
  }

  // A cursor that is not refused may still miss the very event it asks for next; then the
  // replay shows the current diagnostic.
  lemma AcceptedGapIsShown(r: Retention, cursor: nat)
    requires Consistent(r) && Reported(r) && !r.expired
    requires r.initial <= cursor < r.initial + |r.log| && r.log[cursor - r.initial] !in r.journal
    ensures r.diagnostic.Some? && r.diagnostic.value in After(r.journal, cursor)
  {
    ReplayHasNoSilentGap(r, cursor);
    assert r.log[cursor - r.initial] in r.log;
  }

  // It happens: event 1 and the diagnostic 3 are retained, the delta 2 was dropped, and a
  // reader that has seen 1 is accepted.
  lemma AcceptedGapExample() returns (r: Retention)
    ensures Consistent(r) && Reported(r) && !r.expired && r.initial == 0
    ensures |r.journal| > 0 && |r.log| > 1 && 1 >= r.journal[0].sequence - 1 && r.log[1] !in r.journal
  {
    var message := Event(1, "message", Payload(""));
    var delta := Event(2, ".delta", Payload(""));
    var diagnostic := Event(3, "diagnostic", EventsDropped(1, 1));
    r := Retention([message, diagnostic], [message, delta, diagnostic], 0, 3, false, Some(diagnostic), 1, 1);
    OneDeltaDropped(message, delta, diagnostic);
    hide Payloads, Deltas, IsDelta;
  }

  lemma OneDeltaDropped(a: Event, b: Event, d: Event)
    requires a.data.Payload? && b == Event(2, ".delta", Payload("")) && d.data.EventsDropped?
    ensures Payloads([a, b, d]) == Payloads([a, d]) + 1 && Deltas([a, b, d]) == Deltas([a, d]) + 1
  {
    assert IsDelta(b);
    hide Payloads, Deltas, IsDelta;
    PayloadsRemoveAt([a, b, d], 1);
    assert RemoveAt([a, b, d], 1) == [a, d];
  }

  lemma ReplayIsSubLog(r: Retention, cursor: nat)
    requires Consistent(r)
    ensures SubLog(After(r.journal, cursor), r.log, r.initial)
  {
    AfterSorted(r.journal, cursor);
  }

  // A cursor older than the retained part: the event it asks for next is gone.
  lemma RefusedHistoryIsGone(r: Retention, cursor: nat)
    requires Consistent(r) && r.journal != [] && cursor < r.journal[0].sequence - 1
    ensures cursor < r.initial + |r.log|
    ensures cursor >= r.initial ==> r.log[cursor - r.initial] !in r.journal
  {
    FirstIsOldest(r.journal);
    assert r.journal[0] in r.journal;
  }
}
