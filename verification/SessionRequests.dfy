/**
  What a request id means over whole behaviours: within one observer, whose earlier calls it
  remembers, and in the durable record, which later observers read. Then what each write puts
  on record.
 */
module SessionRequests {
  import opened Wrappers
  import opened DurableUpdate
  import opened SessionLedger
  import opened SessionProtocol
  import opened SessionInvariants
  import opened SessionSafety
  import opened SessionOutcomes

  // ---- Within one observer -----------------------------------------------------------

  // The three answers to a call of `run`, told from the observer's fields.
  lemma RepliesExactly(ob: Observer, request: Option<RequestId>, payload: Payload)
    ensures RunReplyTo(ob, request, payload) == Admit <==>
              && !ob.transfer && !ob.detached && !ob.closed
              && (request.Some? ==> !Blank(request.value) && request.value !in ob.known)
              && |ob.known| < 1024 && ob.admission == Idle
    ensures RunReplyTo(ob, request, payload) == SamePromise <==>
              && !ob.transfer && !ob.detached && !ob.closed
              && request.Some? && !Blank(request.value)
              && request.value in ob.known && ob.known[request.value] == payload
    ensures RunReplyTo(ob, request, payload) != Admit ==> Run(ob, request, payload) == ob
    ensures RunReplyTo(ob, request, payload) == Admit ==>
              && Run(ob, request, payload).admission == Queued(request, payload)
              && Run(ob, request, payload).known == if request.Some? then ob.known[request.value := payload] else ob.known
  {
    hide Blank;
  }

  // What is blank is what `trim` leaves nothing of.
  lemma BlankExactly(request: RequestId)
    ensures Blank(request) <==> Trim(request) == ""
    ensures Blank(request) <==> forall i :: 0 <= i < |request| ==> request[i] in WHITE_SPACE
  {
    TrimLeavesContent(request);
    forall c: char ensures WhiteSpace(c as int) <==> c in WHITE_SPACE {
      Listed(c);
    }
  }

  const WHITE_SPACE :=
    "\t\n\U{B}\U{C}\r \U{A0}\U{1680}\U{2000}\U{2001}\U{2002}"
    + "\U{2003}\U{2004}\U{2005}\U{2006}\U{2007}\U{2008}\U{2009}\U{200A}\U{2028}\U{2029}\U{202F}\U{205F}\U{3000}\U{FEFF}"

  lemma Listed(c: char)
    ensures WhiteSpace(c as int) <==> c in WHITE_SPACE
  {
    if WhiteSpace(c as int) {
      var code := c as int;
      var i := if code <= 0x0D then code - 0x09
               else if code == 0x20 then 5 else if code == 0xA0 then 6 else if code == 0x1680 then 7
               else if code <= 0x200A then code - 0x2000 + 8
               else if code == 0x2028 then 19 else if code == 0x2029 then 20 else if code == 0x202F then 21
               else if code == 0x205F then 22 else if code == 0x3000 then 23 else 24;
      assert WHITE_SPACE[i] as int == code;
      assert WHITE_SPACE[i] == c;
    }
  }

  function Trim(s: string): string {
    if s == "" then ""
    else if WhiteSpace(s[0] as int) then Trim(s[1..])
    else if WhiteSpace(s[|s| - 1] as int) then Trim(s[..|s| - 1])
    else s
  }

  lemma {:induction false} TrimLeavesContent(s: string)
    ensures Trim(s) == "" <==> Blank(s)
  {
    if s == "" {
    } else if WhiteSpace(s[0] as int) {
      TrimLeavesContent(s[1..]);
      assert forall c :: c in s <==> c == s[0] || c in s[1..];
    } else {
      assert s[0] in s;
      if WhiteSpace(s[|s| - 1] as int) {
        TrimLeavesContent(s[..|s| - 1]);
        assert |s| > 1 && s[..|s| - 1][0] == s[0];
        assert s[0] in s[..|s| - 1];
      }
    }
  }

  ghost predicate Remembers(known: map<RequestId, Payload>, known': map<RequestId, Payload>) {
    forall q :: q in known ==> q in known' && known'[q] == known[q]
  }

  lemma RunStepIs(s: State, step: Step)
    requires step.RunStep?
    requires Enabled(s, step)
    ensures step.id in s.observers && step.id in Next(s, step).observers
    ensures Next(s, step).observers[step.id] == Run(s.observers[step.id], step.request, step.payload)
    ensures Next(s, step).observers - {step.id} == s.observers - {step.id}
  {
    hide Run;
  }

  lemma StepRemembers(s: State, step: Step, id: ObserverId)
    requires Inv(s) && Enabled(s, step) && id in s.observers && id in Next(s, step).observers
    ensures Remembers(s.observers[id].known, Next(s, step).observers[id].known)
  {
    hide Inv, Enabled, Next, EnabledFor, Run, RunReplyTo;
    ObserverMoves(s, step, id);
    if step.RunStep? && step.id == id {
      RunStepIs(s, step);
      RepliesExactly(s.observers[id], step.request, step.payload);
    }
  }

  // What an observer used a request id for, it remembers for as long as it is there.
  lemma {:induction false} MeaningsAreKept(states: seq<State>, steps: seq<Step>, i: nat, j: nat, id: ObserverId)
    requires Behavior(states, steps) && i <= j < |states| && id in states[i].observers && id in states[j].observers
    ensures Remembers(states[i].observers[id].known, states[j].observers[id].known)
    decreases j
  {
    hide Inv, Enabled, Next, Init;
    if i < j {
      ObserversDoNotReturn(states, steps, i, j, id);
      MeaningsAreKept(states, steps, i, j - 1, id);
      EveryStateKeepsInv(states, steps, j - 1);
      StepRemembers(states[j - 1], steps[j - 1], id);
    }
  }

  // Once an observer has admitted a request id with some content, it answers every later call
  // under this id with the same promise if the content is the same and the session still takes
  // input, and refuses it otherwise; in neither case does the call change anything.
  lemma RepeatsGetTheSamePromise(states: seq<State>, steps: seq<Step>, m: nat, j: nat, q: RequestId, payload: Payload)
    requires Behavior(states, steps) && m < j < |states| && steps[m].RunStep? && steps[m].request == Some(q)
    requires steps[m].id in states[m].observers && steps[m].id in states[j].observers
    requires RunReplyTo(states[m].observers[steps[m].id], Some(q), steps[m].payload) == Admit
    ensures var ob := states[j].observers[steps[m].id];
            && (RunReplyTo(ob, Some(q), payload) == SamePromise <==>
                  payload == steps[m].payload && !ob.transfer && !ob.detached && !ob.closed)
            && RunReplyTo(ob, Some(q), payload) != Admit
            && Run(ob, Some(q), payload) == ob
  {
    hide Inv, Next, RunReplyTo, Run, Blank, Enabled;
    var id := steps[m].id;
    RunStepIs(states[m], steps[m]);
    RepliesExactly(states[m].observers[id], Some(q), steps[m].payload);
    MeaningsAreKept(states, steps, m + 1, j, id);
    RepliesExactly(states[j].observers[id], Some(q), payload);
  }

  // ---- The cached record -------------------------------------------------------------

  lemma StepMovesCache(s: State, step: Step, id: ObserverId)
    requires Inv(s) && Enabled(s, step) && id in Next(s, step).observers
    ensures id in s.observers ==> Next(s, step).observers[id].cache in {s.observers[id].cache, s.durable, Next(s, step).durable}
    ensures id !in s.observers ==> Next(s, step).observers[id].cache == s.durable
  {
    hide Inv, EnabledFor, NextFor, Moved, MovesOne;
    if step.ResumeStep? {
      ResumedReads(s, id);
    } else if !step.NativeEndsStep? {
      EveryStepMovesOne(s, step, s.observers[step.id]);
      if step.id == id {
        OwnCache(s, step, Next(s, step));
      } else {
        OthersStay(s, step, Next(s, step), step.id, id);
      }
    }
  }

  lemma ResumedReads(s: State, id: ObserverId)
    requires Inv(s) && id in DoResume(s).observers
    ensures if id in s.observers then DoResume(s).observers[id] == s.observers[id] else DoResume(s).observers[id].cache == s.durable
  {
    hide GlobalOk, ObserverOk;
    if id in s.observers {
      InvAt(s, id);
    }
  }

  lemma OwnCache(s: State, step: Step, s': State)
    requires !step.ResumeStep? && !step.NativeEndsStep?
    requires step.id in s.observers && step.id in s'.observers && MovesOne(s, step, step.id, s.observers[step.id], s')
    ensures s'.observers[step.id].cache in {s.observers[step.id].cache, s.durable, s'.durable}
  {
    hide Moved;
  }

  // An observer's cached record is never anything but the durable one, now or at some earlier
  // moment.
  lemma {:induction false} CachesAreFromThePast(states: seq<State>, steps: seq<Step>, i: nat, id: ObserverId) returns (k: nat)
    requires Behavior(states, steps) && i < |states| && id in states[i].observers
    ensures k <= i && states[i].observers[id].cache == states[k].durable
  {
    hide Inv, Enabled, Next;
    if i == 0 {
      k := 0;
    } else {
      EveryStateKeepsInv(states, steps, i - 1);
      StepMovesCache(states[i - 1], steps[i - 1], id);
      var cache := states[i].observers[id].cache;
      if cache == states[i].durable {
        k := i;
      } else if cache == states[i - 1].durable {
        k := i - 1;
      } else {
        k := CachesAreFromThePast(states, steps, i - 1, id);
      }
    }
  }

  // ---- Requests on record ------------------------------------------------------------

  predicate RecordedAs(l: Ledger, q: RequestId, payload: Payload, r: RunId) {
    q in l.requests && l.requests[q].digest == payload && l.requests[q].runId == r
  }

  // The start of an admission, told from the fields: a recorded id is looked up exactly with
  // the content it was recorded with, and only an id that is not recorded goes on.
  lemma AdmissionBeginsExactly(ob: Observer, aborted: bool)
    requires ob.admission.Queued?
    ensures BeginAdmit(ob, aborted).LookingUp? <==>
              && !ob.closed && !ob.detached && ob.admission.request.Some?
              && ob.admission.request.value in ob.cache.requests
              && ob.cache.requests[ob.admission.request.value].digest == ob.admission.payload
              && !ob.cache.requests[ob.admission.request.value].rejected
    ensures BeginAdmit(ob, aborted).LookingUp? ==>
              BeginAdmit(ob, aborted) == LookingUp(ob.admission.request, ob.admission.payload, ob.cache.requests[ob.admission.request.value].runId)
    ensures BeginAdmit(ob, aborted).Inspecting? <==>
              && !ob.closed && !ob.detached && !aborted
              && !(ob.admission.request.Some? && ob.admission.request.value in ob.cache.requests)
    ensures BeginAdmit(ob, aborted).Inspecting? ==> BeginAdmit(ob, aborted) == Inspecting(ob.admission.request, ob.admission.payload)
  {
  }

  lemma AdmitStepIs(s: State, step: Step)
    requires step.AdmitStep?
    requires Enabled(s, step)
    ensures step.id in s.observers && s.observers[step.id].admission.Queued? && step.id in Next(s, step).observers
    ensures Next(s, step).observers[step.id] == s.observers[step.id].(admission := BeginAdmit(s.observers[step.id], step.aborted))
    ensures Next(s, step).durable == s.durable
  {
    hide BeginAdmit;
  }

  // A request that is looked up is on record with the run and the content it is looked up
  // with, by now and for good; so it is never answered with the run of another request, or of
  // another content.
  lemma {:induction false} LookedUpIsRecorded(states: seq<State>, steps: seq<Step>, i: nat, j: nat, id: ObserverId)
    requires Behavior(states, steps) && i <= j < |states| && id in states[i].observers
    requires states[i].observers[id].admission.LookingUp?
    ensures var a := states[i].observers[id].admission;
            a.request.Some? && RecordedAs(states[j].durable, a.request.value, a.payload, a.runId)
    decreases i
  {
    hide Inv, Enabled, Next, Moved, HandlesGrow, RecordedAs, BeginAdmit, Preserves, EnabledFor;
    if i == 0 {
      assert false;
    }
    EveryStateKeepsInv(states, steps, i - 1);
    if id !in states[i - 1].observers {
      NewObserversAreIdle(states[i - 1], steps[i - 1], id);
      assert false;
    } else {
      ObserverMoves(states[i - 1], steps[i - 1], id);
      if states[i].observers[id].admission == states[i - 1].observers[id].admission {
        LookedUpIsRecorded(states, steps, i - 1, j, id);
      } else {
        LookUpsBegin(steps[i - 1], states[i - 1].observers[id], states[i].observers[id]);
        AdmitStepIs(states[i - 1], steps[i - 1]);
        AdmissionBeginsExactly(states[i - 1].observers[id], steps[i - 1].aborted);
        var k := CachesAreFromThePast(states, steps, i - 1, id);
        OutcomesArePermanent(states, steps, k, j);
        RecordedStays(states[k].durable, states[j].durable, states[i].observers[id].admission);
      }
    }
  }

  lemma LookUpsBegin(step: Step, ob: Observer, ob': Observer)
    requires Moved(step, ob, ob') && ob'.admission.LookingUp? && ob'.admission != ob.admission
    ensures step.AdmitStep?
  {
  }

  lemma RecordedStays(l: Ledger, l': Ledger, a: Admission)
    requires a.LookingUp? && a.request.Some? && RecordedAs(l, a.request.value, a.payload, a.runId) && Preserves(l, l')
    ensures RecordedAs(l', a.request.value, a.payload, a.runId)
  {
  }

  lemma NewObserversAreIdle(s: State, step: Step, id: ObserverId)
    requires Inv(s) && Enabled(s, step) && id in Next(s, step).observers && id !in s.observers
    ensures Next(s, step).observers[id].admission == Idle
  {
    hide Inv, EnabledFor, NextFor, Moved, MovesOne;
    if !step.ResumeStep? && !step.NativeEndsStep? {
      EveryStepMovesOne(s, step, s.observers[step.id]);
      if step.id != id {
        OthersStay(s, step, Next(s, step), step.id, id);
      }
    }
  }

  // What a repeat is answered with, at any time: the run of the recorded request, which was
  // begun for this very request and content. The run is never unavailable, and a recorded
  // result is the one on record for good.
  lemma RepeatsAreAnsweredTruthfully(states: seq<State>, steps: seq<Step>, i: nat, id: ObserverId)
    requires Behavior(states, steps) && i < |states| && id in states[i].observers
    requires states[i].observers[id].admission.LookingUp?
    ensures var s, ob := states[i], states[i].observers[id];
            var a := ob.admission;
            && a.runId in s.history && s.history[a.runId].request == a.request && s.history[a.runId].payload == a.payload
            && LookUp(ob, a.runId) != Unavailable
            && (LookUp(ob, a.runId).Saved? ==> Records(s.durable, a.runId, LookUp(ob, a.runId).result))
  {
    hide Inv, Behavior, RecordedAs, Preserves, LookUp, Records;
    var a := states[i].observers[id].admission;
    LookedUpIsRecorded(states, steps, i, i, id);
    EveryStateKeepsInv(states, steps, i);
    var k := CachesAreFromThePast(states, steps, i, id);
    CachedSinceLookedUp(states, steps, i, id);
    EveryStateKeepsInv(states, steps, k);
    OutcomesArePermanent(states, steps, k, i);
    RecordedRun(states[i], a.request.value, a.payload, a.runId);
    RecordedRun(states[k], a.request.value, a.payload, a.runId);
    AnswersFromCache(states[k].durable, states[i].durable, states[i].observers[id], a.runId);
  }

  // The cached record names the request for as long as it is looked up.
  lemma {:induction false} CachedSinceLookedUp(states: seq<State>, steps: seq<Step>, i: nat, id: ObserverId)
    requires Behavior(states, steps) && i < |states| && id in states[i].observers
    requires states[i].observers[id].admission.LookingUp?
    ensures var ob := states[i].observers[id];
            ob.admission.request.Some? && RecordedAs(ob.cache, ob.admission.request.value, ob.admission.payload, ob.admission.runId)
  {
    hide Inv, Enabled, Next, Moved, HandlesGrow, RecordedAs, BeginAdmit, Preserves, EnabledFor;
    if i == 0 {
      assert false;
    }
    EveryStateKeepsInv(states, steps, i - 1);
    if id !in states[i - 1].observers {
      NewObserversAreIdle(states[i - 1], steps[i - 1], id);
      assert false;
    } else {
      ObserverMoves(states[i - 1], steps[i - 1], id);
      if states[i].observers[id].admission == states[i - 1].observers[id].admission {
        CachedSinceLookedUp(states, steps, i - 1, id);
        LookedUpIsRecorded(states, steps, i - 1, i - 1, id);
        LookedUpIsRecorded(states, steps, i, i, id);
        StepMovesCache(states[i - 1], steps[i - 1], id);
      } else {
        LookUpsBegin(steps[i - 1], states[i - 1].observers[id], states[i].observers[id]);
        AdmitStepIs(states[i - 1], steps[i - 1]);
        AdmissionBeginsExactly(states[i - 1].observers[id], steps[i - 1].aborted);
        CachedAs(states[i].observers[id]);
      }
    }
  }

  lemma CachedAs(ob: Observer)
    requires ob.admission.LookingUp? && ob.admission.request.Some? && ob.admission.request.value in ob.cache.requests
    requires ob.cache.requests[ob.admission.request.value].digest == ob.admission.payload
    requires ob.cache.requests[ob.admission.request.value].runId == ob.admission.runId
    ensures RecordedAs(ob.cache, ob.admission.request.value, ob.admission.payload, ob.admission.runId)
  {
  }

  lemma RecordedRun(s: State, q: RequestId, payload: Payload, r: RunId)
    requires Inv(s) && RecordedAs(s.durable, q, payload, r)
    ensures r in s.durable.runs && r in s.history && s.history[r].request == Some(q) && s.history[r].payload == payload
    ensures s.durable.runs[r].state == Terminal ==>
              s.durable.runs[r] == RunRecord(Terminal, None, None, s.durable.runs[r].result) && s.durable.runs[r].result.Some?
  {
    hide ObserverOk, CallsOk, WindowsOk, IdsOk;
  }

  lemma AnswersFromCache(past: Ledger, l: Ledger, ob: Observer, r: RunId)
    requires ob.cache == past && r in past.runs && Preserves(past, l)
    requires past.runs[r].state == Terminal ==>
               past.runs[r] == RunRecord(Terminal, None, None, past.runs[r].result) && past.runs[r].result.Some?
    ensures LookUp(ob, r) != Unavailable
    ensures LookUp(ob, r).Saved? ==> Records(l, r, LookUp(ob, r).result)
  {
  }

  // ---- What writes record ------------------------------------------------------------

  // A committed write of the lease holder puts on record what it was for: an intent, its
  // rejection, its acceptance.
  lemma CommittedAdmissions(s: State, id: ObserverId, ob: Observer, q: Option<RequestId>, p: Payload, r: RunId)
    requires s.lease == Some(id) && id in s.observers
    ensures ob.admission == Persisting(q, p, r) && s.durable.active.None? && |s.durable.requests| < 1024 ==>
              var d := DoPersistIntent(s, id, ob, Committed).durable;
              && d.active == Some(r) && d.runs == s.durable.runs[r := RunRecord(Submitting, Some(p), Some(1_000_000), None)]
              && d.requests == if q.Some? then s.durable.requests[q.value := RequestRecord(p, r, false)] else s.durable.requests
    ensures ob.admission == Persisting(q, p, r) && (s.durable.active.Some? || |s.durable.requests| >= 1024) ==>
              DoPersistIntent(s, id, ob, Committed).durable == s.durable
    ensures ob.admission == Rejecting(q, p, r) ==>
              var d := DoPersistRejection(s, id, ob, Committed).durable;
              && d.active == None && d.runs == s.durable.runs[r := RunRecord(Rejected, None, None, None)]
              && d.requests == if q.Some? then s.durable.requests[q.value := RequestRecord(p, r, true)] else s.durable.requests
    ensures ob.execution.Some? && ob.execution.value.runId == r && r in s.durable.runs ==>
              var d := DoPersistAccepted(s, id, ob, Committed).durable;
              && d.active == s.durable.active && d.requests == s.durable.requests
              && d.runs == s.durable.runs[r := s.durable.runs[r].(state := Observing)]
  {
  }

  // And a result, an unknown end, and the next window.
  lemma CommittedOutcomes(s: State, id: ObserverId, ob: Observer, r: RunId, again: bool)
    requires s.lease == Some(id) && id in s.observers
    ensures r in ob.decisions && r in ob.finished && ob.decisions[r] == Keep ==>
              var d := DoPersistOutcome(s, id, ob, r, Committed, again).durable;
              && d.active == (if s.durable.active == Some(r) then None else s.durable.active) && d.requests == s.durable.requests
              && d.runs == s.durable.runs[r := RunRecord(Terminal, None, None, Some(ob.finished[r].result))]
    ensures r in ob.decisions && r in ob.finished && ob.decisions[r] == Unresolved && r in s.durable.runs ==>
              var d := DoPersistOutcome(s, id, ob, r, Committed, again).durable;
              && d.active == s.durable.active && d.requests == s.durable.requests
              && d.runs == s.durable.runs[r := s.durable.runs[r].(state := Unknown)]
    ensures ob.resuming.Reserving? && ob.resuming.runId == r && r in s.durable.runs ==>
              var d := DoPersistWindow(s, id, ob, Committed).durable;
              && d.active == s.durable.active && d.requests == s.durable.requests
              && d.runs == s.durable.runs[r := s.durable.runs[r].(highWater := Some(ob.resuming.previous + 1_000_000))]
  {
  }

  // What the driver's report makes of a resumed session: without a recorded active run it is
  // ready; with one it goes on to reserve the window behind the recorded high water if the
  // driver knows the run, and has failed otherwise.
  lemma RestoredExactly(ob: Observer, found: bool)
    ensures ob.cache.active.None? ==> Restored(ob, found) == ob.(resuming := Attached)
    ensures ob.cache.active.Some? && !found ==> Restored(ob, found) == ob.(resuming := Attached, local := Failed)
    ensures ob.cache.active.Some? && found ==>
              && Restored(ob, found) == ob.(resuming := Restored(ob, found).resuming)
              && Restored(ob, found).resuming.Reserving? && Restored(ob, found).resuming.runId == ob.cache.active.value
              && Restored(ob, found).resuming.previous ==
                   if && ob.cache.active.value in ob.cache.runs
                      && ob.cache.runs[ob.cache.active.value].highWater.Some?
                   then ob.cache.runs[ob.cache.active.value].highWater.value
                   else 0
  {
  }
}
