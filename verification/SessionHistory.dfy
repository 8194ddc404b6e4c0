/**
  Which finished runs a session can still replay. Each finished run's hub is kept until the
  retained journals together exceed the session budget; then the oldest are expired.
 */
module SessionHistory {
  import opened Wrappers
  import opened Journal
  import opened EventHub

  function Sum(sizes: seq<nat>): nat {
    if sizes == [] then 0 else sizes[0] + Sum(sizes[1..])
  }

  // Declarative specification: `sizes[k..]` is the longest suffix that fits the budget.
  ghost predicate LongestFittingSuffix(sizes: seq<nat>, budget: nat, k: nat) {
    && k <= |sizes|
    && Sum(sizes[k..]) <= budget
    && (forall i :: 0 <= i < k ==> Sum(sizes[i..]) > budget)
  }

  lemma {:induction false} SumAppend(sizes: seq<nat>, x: nat)
    ensures Sum(sizes + [x]) == Sum(sizes) + x
  {
    if sizes != [] {
      SumAppend(sizes[1..], x);
      assert (sizes + [x])[1..] == sizes[1..] + [x];
    } else {
      assert sizes + [x] == [x];
    }
  }

  lemma SumDrop(sizes: seq<nat>, k: nat)
    requires k < |sizes|
    ensures Sum(sizes[k..]) == sizes[k] + Sum(sizes[k + 1..])
  {
    assert sizes[k..][1..] == sizes[k + 1..];
  }

  // The run that just finished survives whenever its own journal fits.
  lemma NewestIsReplayable(sizes: seq<nat>, budget: nat, k: nat)
    requires sizes != [] && LongestFittingSuffix(sizes, budget, k)
    ensures k < |sizes| <==> sizes[|sizes| - 1] <= budget
  {
    var last := |sizes| - 1;
    assert sizes[last..] == [sizes[last]];
    assert Sum([sizes[last]]) == sizes[last] + Sum([]);
    if k <= last {
      SuffixSumsShrink(sizes, k, last);
    }
  }

  lemma {:induction false} SuffixSumsShrink(sizes: seq<nat>, i: nat, k: nat)
    requires i <= k <= |sizes|
    ensures Sum(sizes[k..]) <= Sum(sizes[i..])
    decreases k - i
  {
    if i < k {
      SumDrop(sizes, i);
      SuffixSumsShrink(sizes, i + 1, k);
    }
  }

  // The specification determines its answer.
  lemma LongestFittingSuffixIsUnique(sizes: seq<nat>, budget: nat, k: nat, m: nat)
    requires LongestFittingSuffix(sizes, budget, k) && LongestFittingSuffix(sizes, budget, m)
    ensures k == m
  {
  }

  // Dropping more than fits today can never be undone by a run that finishes later.
  lemma ExpiredStaysExpired(sizes: seq<nat>, x: nat, budget: nat, k: nat)
    requires LongestFittingSuffix(sizes, budget, k)
    ensures forall i :: 0 <= i < k ==> Sum((sizes + [x])[i..]) > budget
    ensures Sum((sizes + [x])[k..]) == Sum(sizes[k..]) + x
  {
    forall i | 0 <= i <= k ensures Sum((sizes + [x])[i..]) == Sum(sizes[i..]) + x {
      SumAppend(sizes[i..], x);
      assert (sizes + [x])[i..] == sizes[i..] + [x];
    }
  }

  class CompletedRuns {
    const maxSessionJournalBytes: nat
    var completedHubs: seq<AsyncEventHub>

    ghost var finished: seq<AsyncEventHub>  // every run that ever finished, oldest first
    ghost var sizes: seq<nat>               // its journal size when it finished

    constructor (maxSessionJournalBytes: nat)
      ensures Valid() && finished == [] && this.maxSessionJournalBytes == maxSessionJournalBytes
    {
      this.maxSessionJournalBytes := maxSessionJournalBytes;
      completedHubs, finished, sizes := [], [], [];
    }

    // How many of the finished runs are gone.
    ghost function Gone(): int
      reads this
    {
      |finished| - |completedHubs|
    }

    // Journal bytes of the retained hubs.
    ghost function Remaining(): nat
      reads this
    {
      if 0 <= Gone() <= |sizes| then Sum(sizes[Gone()..]) else 0
    }

    // The retained hubs are a suffix of the finished ones, and everything older is expired
    // for lack of room.
    ghost predicate Tracking()
      reads this, finished
    {
      && |sizes| == |finished|
      && (forall i, k :: 0 <= i < k < |finished| ==> finished[i] != finished[k])
      && 0 <= Gone() <= |finished|
      && completedHubs == finished[Gone()..]
      && (forall i :: Gone() <= i < |finished| ==> finished[i].journalBytes == sizes[i] && !finished[i].expired)
      && (forall i :: 0 <= i < Gone() ==> finished[i].expired)
      && (forall i :: 0 <= i < Gone() ==> Sum(sizes[i..]) > maxSessionJournalBytes)
    }

    ghost predicate Valid()
      reads this, finished
    {
      Tracking() && LongestFittingSuffix(sizes, maxSessionJournalBytes, Gone())
    }

    static function RetainedBytes(hubs: seq<AsyncEventHub>): int
      reads hubs
    {
      if hubs == [] then 0 else hubs[0].journalBytes + RetainedBytes(hubs[1..])
    }

    lemma {:induction false} RetainedIsSum(from: nat)
      requires |sizes| == |finished| && from <= |finished|
      requires forall i :: from <= i < |finished| ==> finished[i].journalBytes == sizes[i]
      ensures RetainedBytes(finished[from..]) == Sum(sizes[from..])
      decreases |finished| - from
    {
      if from < |finished| {
        RetainedIsSum(from + 1);
        SumDrop(sizes, from);
        assert finished[from..][1..] == finished[from + 1..];
      }
    }

    method RetainHub(hub: AsyncEventHub)
      requires Valid() && hub !in finished && !hub.expired && hub.journalBytes >= 0
      modifies this`completedHubs, this`finished, this`sizes,
               (set h | h in finished)`expired, (set h | h in finished)`journal, (set h | h in finished)`journalBytes,
               hub`expired, hub`journal, hub`journalBytes
      ensures Valid()
      ensures finished == old(finished) + [hub] && sizes == old(sizes) + [old(hub.journalBytes)]
      ensures old(hub.journalBytes) <= maxSessionJournalBytes ==> hub in completedHubs && !hub.expired
      // so a hub within its own, smaller budget stays replayable, unless all it holds is one
      // diagnostic larger than that budget
      ensures old(hub.WithinBudget()) && hub.maxJournalBytes <= maxSessionJournalBytes ==>
                (hub in completedHubs && !hub.expired)
                || (hub.truncationDiagnostic.Some? && old(hub.journal) == [hub.truncationDiagnostic.value])
    {
      hide Sum, Tracking, LongestFittingSuffix;
      Track(hub);
      var retained := RetainedTotal();
      while retained > maxSessionJournalBytes && |completedHubs| > 0
        invariant Tracking() && retained == Remaining()
        invariant finished == old(finished) + [hub] && sizes == old(sizes) + [old(hub.journalBytes)]
        decreases |completedHubs|
      {
        retained := ExpireOldest(retained);
      }
      KeptLongestSuffix(hub, retained);
    }

    method Track(hub: AsyncEventHub)
      requires Valid() && hub !in finished && !hub.expired && hub.journalBytes >= 0
      modifies this`completedHubs, this`finished, this`sizes
      ensures Tracking() && finished == old(finished) + [hub] && sizes == old(sizes) + [hub.journalBytes]
    {
      ExpiredStaysExpired(sizes, hub.journalBytes, maxSessionJournalBytes, Gone());
      hide Sum;
      completedHubs := completedHubs + [hub];
      finished, sizes := finished + [hub], sizes + [hub.journalBytes];
    }

    // The source's reduce over the retained hubs.
    method RetainedTotal() returns (retained: int)
      requires Tracking()
      ensures retained == Remaining()
    {
      RetainedIsSum(Gone());
      hide Sum;
      retained := RetainedBytes(completedHubs);
    }

    lemma KeptLongestSuffix(hub: AsyncEventHub, retained: int)
      requires Tracking() && retained == Remaining()
      requires retained <= maxSessionJournalBytes || completedHubs == []
      requires finished != [] && finished[|finished| - 1] == hub
      ensures Valid()
      ensures sizes[|sizes| - 1] <= maxSessionJournalBytes ==> hub in completedHubs && !hub.expired
    {
      assert completedHubs == [] ==> sizes[Gone()..] == [];
      NewestIsReplayable(sizes, maxSessionJournalBytes, Gone());
      if completedHubs != [] {
        assert completedHubs[|completedHubs| - 1] == hub;
      }
    }

    method ExpireOldest(retained: int) returns (left: int)
      requires Tracking() && retained == Remaining() && retained > maxSessionJournalBytes
      requires |completedHubs| > 0
      modifies this`completedHubs,
               (set h | h in finished)`expired, (set h | h in finished)`journal, (set h | h in finished)`journalBytes
      ensures Tracking() && left == Remaining()
      ensures |completedHubs| == old(|completedHubs|) - 1
    {
      hide AsyncEventHub.Valid, Sum;
      var oldest := completedHubs[0];
      SumDrop(sizes, Gone());
      completedHubs := completedHubs[1..];
      left := retained - oldest.journalBytes;
      oldest.Expire();
    }
  }
}
