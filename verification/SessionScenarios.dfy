/**
  Two reachable states of the session protocol in which `getRun` answers in a way its caller
  may not expect. `SessionOutcomes.GetRunIsTruthful` says exactly when each answer is given.
 */
module SessionScenarios {
  import opened Wrappers
  import opened DurableUpdate
  import opened SessionLedger
  import opened SessionProtocol
  import opened SessionSafety

  ghost predicate Reaches(states: seq<State>, steps: seq<Step>, s: State) {
    Behavior(states, steps) && states[|steps|] == s
  }

  // The state after `step`, if that can be taken.
  function Successor(s: State, step: Step): Option<State> {
    if Enabled(s, step) then Some(Next(s, step)) else None
  }

  // One more step.
  lemma Extend(states: seq<State>, steps: seq<Step>, s: State, step: Step, s': State) returns (states': seq<State>, steps': seq<Step>)
    requires Reaches(states, steps, s) && Successor(s, step).Some? && Successor(s, step).value == s'
    ensures Reaches(states', steps', s') && steps' == steps + [step]
  {
    hide Enabled, Next, Init;
    states', steps' := states + [s'], steps + [step];
    forall i | 0 <= i < |steps'| ensures Enabled(states'[i], steps'[i]) && states'[i + 1] == Next(states'[i], steps'[i]) {
      assert states'[i] == states[i];
    }
  }

  // ---- One observer alone with its run 0 ----------------------------------------------

  function Alone(durable: Ledger, ob: Observer, native: NativeStatus, calls: seq<Call>, streams: seq<Window>): State {
    State(durable, Some(0), map[0 := ob], 1, map[0 := Origin(None, "input", 0, native)], calls,
          map[Window(0, 0) := 0], streams)
  }

  function Recorded(record: RunRecord, active: Option<RunId>): Ledger {
    Ledger(active, map[0 := record], map[])
  }

  function Open(state: RunState): Ledger {
    Recorded(RunRecord(state, Some("input"), Some(WINDOW), None), Some(0))
  }

  function RejectedLedger(): Ledger {
    Recorded(RunRecord(Rejected, None, None, None), None)
  }

  function SavedLedger(): Ledger {
    Recorded(RunRecord(Terminal, None, None, Some("result")), None)
  }

  // ---- Admission ----------------------------------------------------------------------

  function Admitting(a: Admission): State {
    Init().(observers := map[0 := NewObserver(EmptyLedger(), Attached).(admission := a)])
  }

  function Intending(): State {
    Admitting(Persisting(None, "input", 0)).(history := map[0 := Origin(None, "input", 0, Reserved)])
  }

  function Intended(): State {
    Alone(Open(Submitting), NewObserver(Open(Submitting), Attached).(admission := Persisted(None, "input", 0)), Reserved, [], [])
  }

  lemma Runs(s: State, s': State)
    requires s == Init() && s' == Admitting(Queued(None, "input"))
    ensures Successor(s, RunStep(0, None, "input")).Some? && Successor(s, RunStep(0, None, "input")).value == s'
  {
  }

  lemma AdmissionBegins(s: State, s': State)
    requires s == Admitting(Queued(None, "input")) && s' == Admitting(Inspecting(None, "input"))
    ensures Successor(s, AdmitStep(0, false)).Some? && Successor(s, AdmitStep(0, false)).value == s'
  {
  }

  lemma Inspects(s: State, s': State)
    requires s == Admitting(Inspecting(None, "input")) && s' == Intending()
    ensures Successor(s, InspectedStep(0, false, 0)).Some? && Successor(s, InspectedStep(0, false, 0)).value == s'
  {
  }

  lemma IntentCommits(s: State, s': State)
    requires s == Intending() && s' == Intended()
    ensures Successor(s, PersistIntentStep(0, Committed)).Some? && Successor(s, PersistIntentStep(0, Committed)).value == s'
  {
    assert AdmitChange(EmptyLedger(), 0, None, "input") == Some(Open(Submitting));
  }

  // An input without request id is admitted, and its intent recorded.
  lemma Admits() returns (states: seq<State>, steps: seq<Step>)
    ensures Reaches(states, steps, Intended()) && NoSaves(steps)
  {
    hide Reaches, Successor, Init, Admitting, Intending, Intended, StartedRun, HandedOut, CalledRun, AcceptedRun, EndedRun, FinishedRun;
    Runs(Init(), Admitting(Queued(None, "input")));
    AdmissionBegins(Admitting(Queued(None, "input")), Admitting(Inspecting(None, "input")));
    Inspects(Admitting(Inspecting(None, "input")), Intending());
    IntentCommits(Intending(), Intended());
    InitReaches();
    states, steps := Extend([Init()], [], Init(), RunStep(0, None, "input"), Admitting(Queued(None, "input")));
    states, steps := Extend(states, steps, Admitting(Queued(None, "input")), AdmitStep(0, false), Admitting(Inspecting(None, "input")));
    states, steps := Extend(states, steps, Admitting(Inspecting(None, "input")), InspectedStep(0, false, 0), Intending());
    states, steps := Extend(states, steps, Intending(), PersistIntentStep(0, Committed), Intended());
  }

  lemma InitReaches()
    ensures Reaches([Init()], [], Init())
  {
    hide Init;
  }

  predicate NoSaves(steps: seq<Step>) {
    forall k :: 0 <= k < |steps| ==> !steps[k].PersistOutcomeStep?
  }

  // ---- A rejected run -----------------------------------------------------------------

  function Refusing(): State {
    Alone(Open(Submitting), NewObserver(Open(Submitting), Attached).(admission := Rejecting(None, "input", 0)), Refused, [], [])
  }

  function RefusalRecorded(): State {
    Alone(RejectedLedger(), NewObserver(RejectedLedger(), Attached), Refused, [], [])
  }

  lemma StartIsRefused(s: State, s': State)
    requires s == Intended() && s' == Refusing()
    ensures Successor(s, StartStep(0, true)).Some? && Successor(s, StartStep(0, true)).value == s'
  {
  }

  lemma RejectionCommits(s: State, s': State)
    requires s == Refusing() && s' == RefusalRecorded()
    ensures Successor(s, PersistRejectionStep(0, Committed)).Some? && Successor(s, PersistRejectionStep(0, Committed)).value == s'
  {
    assert RejectChange(Open(Submitting), 0, None, "input") == RejectedLedger();
  }

  // A run that could not be started is answered with the error that asks for recovery,
  // although there is nothing to recover.
  lemma RejectedRunAsksForRecovery() returns (states: seq<State>, steps: seq<Step>)
    ensures Reaches(states, steps, RefusalRecorded())
    ensures RefusalRecorded().calls == [] && RefusalRecorded().durable.runs[0].state == Rejected
    ensures LookUp(RefusalRecorded().observers[0], 0) == NeedsRecovery
  {
    hide Reaches, Successor, Intended, Refusing, FinishedRun, Saving, Unsaved;
    states, steps := Admits();
    StartIsRefused(Intended(), Refusing());
    RejectionCommits(Refusing(), RefusalRecorded());
    states, steps := Extend(states, steps, Intended(), StartStep(0, true), Refusing());
    states, steps := Extend(states, steps, Refusing(), PersistRejectionStep(0, Committed), RefusalRecorded());
  }

  // ---- A run that completes -----------------------------------------------------------

  function Executing(stage: Stage, cache: Ledger): Observer {
    NewObserver(cache, Attached).(
    local := Running, tracked := {0}, execution := Some(Execution(0, None, "input", false, stage)))
  }

  function StartedRun(): State {
    Alone(Open(Submitting), Executing(Beginning, Open(Submitting)).(tracked := {}, admission := Started(0)), Armed, [], [Window(0, 0)])
  }

  function HandedOut(): State {
    Alone(Open(Submitting), Executing(Beginning, Open(Submitting)), Armed, [], [Window(0, 0)])
  }

  function OnRun(durable: Ledger, ob: Observer, native: NativeStatus): State {
    Alone(durable, ob, native, [Call(0, None, "input")], [Window(0, 0)])
  }

  function CalledRun(): State { OnRun(Open(Submitting), Executing(Called, Open(Submitting)), Live) }
  function AcceptedRun(): State { OnRun(Open(Observing), Executing(Accepted, Open(Observing)), Live) }
  function EndedRun(): State { OnRun(Open(Observing), Executing(Accepted, Open(Observing)), Dead) }

  function Resting(cache: Ledger): Observer {
    NewObserver(cache, Attached).(tracked := {0}, finished := map[0 := Ending(true, "result")])
  }

  function FinishedRun(): State { OnRun(Open(Observing), Resting(Open(Observing)), Dead) }

  lemma Starts(s: State, s': State)
    requires s == Intended() && s' == StartedRun()
    ensures Successor(s, StartStep(0, false)).Some? && Successor(s, StartStep(0, false)).value == s'
  {
  }

  lemma HandsOut(s: State, s': State)
    requires s == StartedRun() && s' == HandedOut()
    ensures Successor(s, AdmissionReturnsStep(0)).Some? && Successor(s, AdmissionReturnsStep(0)).value == s'
  {
    assert {} + {0} == {0};
  }

  lemma Calls(s: State, s': State)
    requires s == HandedOut() && s' == CalledRun()
    ensures Successor(s, CallStep(0)).Some? && Successor(s, CallStep(0)).value == s'
  {
  }

  lemma AcceptanceCommits(s: State, s': State)
    requires s == CalledRun() && s' == AcceptedRun()
    ensures Successor(s, PersistAcceptedStep(0, Committed)).Some? && Successor(s, PersistAcceptedStep(0, Committed)).value == s'
  {
    assert AcceptChange(Open(Submitting), 0) == Open(Observing);
  }

  lemma NativeEnds(s: State, s': State)
    requires s == AcceptedRun() && s' == EndedRun()
    ensures Successor(s, NativeEndsStep(0)).Some? && Successor(s, NativeEndsStep(0)).value == s'
  {
  }

  lemma Finishes(s: State, s': State)
    requires s == EndedRun() && s' == FinishedRun()
    ensures Successor(s, FinishStep(0, Ending(true, "result"))).Some? && Successor(s, FinishStep(0, Ending(true, "result"))).value == s'
  {
  }

  lemma Executes() returns (states: seq<State>, steps: seq<Step>)
    ensures Reaches(states, steps, FinishedRun()) && NoSaves(steps)
  {
    hide Reaches, Successor, Init, Admitting, Intending, Intended, StartedRun, HandedOut, CalledRun, AcceptedRun, EndedRun, FinishedRun;
    states, steps := Admits();
    Starts(Intended(), StartedRun());
    HandsOut(StartedRun(), HandedOut());
    Calls(HandedOut(), CalledRun());
    AcceptanceCommits(CalledRun(), AcceptedRun());
    NativeEnds(AcceptedRun(), EndedRun());
    Finishes(EndedRun(), FinishedRun());
    states, steps := Extend(states, steps, Intended(), StartStep(0, false), StartedRun());
    states, steps := Extend(states, steps, StartedRun(), AdmissionReturnsStep(0), HandedOut());
    states, steps := Extend(states, steps, HandedOut(), CallStep(0), CalledRun());
    states, steps := Extend(states, steps, CalledRun(), PersistAcceptedStep(0, Committed), AcceptedRun());
    states, steps := Extend(states, steps, AcceptedRun(), NativeEndsStep(0), EndedRun());
    states, steps := Extend(states, steps, EndedRun(), FinishStep(0, Ending(true, "result")), FinishedRun());
  }

  // ---- A failed save and its repair ---------------------------------------------------

  function Decided(): Observer {
    Resting(Open(Observing)).(decisions := map[0 := Keep], pendingResults := {0})
  }

  function Saving(): State { OnRun(Open(Observing), Decided().(writes := {0}), Dead) }
  function Unsaved(): State { OnRun(Open(Observing), Decided(), Dead) }
  function Repaired(): State { OnRun(SavedLedger(), Decided().(pendingResults := {}, cache := SavedLedger()), Dead) }

  lemma Decides(s: State, s': State)
    requires s == FinishedRun() && s' == Saving()
    ensures Successor(s, DecideStep(0, 0)).Some? && Successor(s, DecideStep(0, 0)).value == s'
  {
    assert {} + {0} == {0};
  }

  lemma SaveFails(s: State, s': State)
    requires s == Saving() && s' == Unsaved()
    ensures Successor(s, PersistOutcomeStep(0, 0, FailedBefore(true), false)).Some? && Successor(s, PersistOutcomeStep(0, 0, FailedBefore(true), false)).value == s'
  {
    assert {0} - {0} == {};
  }

  lemma Retries(s: State, s': State)
    requires s == Unsaved() && s' == Saving()
    ensures Successor(s, RetryStep(0, 0)).Some? && Successor(s, RetryStep(0, 0)).value == s'
  {
    assert {} + {0} == {0};
  }

  lemma SaveCommits(s: State, s': State)
    requires s == Saving() && s' == Repaired()
    ensures Successor(s, PersistOutcomeStep(0, 0, Committed, false)).Some? && Successor(s, PersistOutcomeStep(0, 0, Committed, false)).value == s'
  {
    assert {0} - {0} == {};
    assert ResultChange(Open(Observing), 0, "result") == SavedLedger();
  }

  // The first save of a result fails, which is what the promise of the handle given out reports
  // for good; a retry saves it. From then on `getRun` answers with that old handle and not with
  // the recorded result.
  lemma HandleOutlivesRepair() returns (states: seq<State>, steps: seq<Step>, first: nat)
    ensures Reaches(states, steps, Repaired())
    ensures first < |steps| && steps[first] == PersistOutcomeStep(0, 0, FailedBefore(true), false) && NoSaves(steps[..first])
    ensures Repaired().durable.runs[0].result == Some("result") && Repaired().observers[0].cache == Repaired().durable
    ensures LookUp(Repaired().observers[0], 0) == Handle
  {
    hide Reaches, Successor, Intended, Refusing, FinishedRun, Saving, Unsaved;
    states, steps := Executes();
    Decides(FinishedRun(), Saving());
    SaveFails(Saving(), Unsaved());
    Retries(Unsaved(), Saving());
    SaveCommits(Saving(), Repaired());
    states, steps := Extend(states, steps, FinishedRun(), DecideStep(0, 0), Saving());
    first := |steps|;
    states, steps := Extend(states, steps, Saving(), PersistOutcomeStep(0, 0, FailedBefore(true), false), Unsaved());
    states, steps := Extend(states, steps, Unsaved(), RetryStep(0, 0), Saving());
    states, steps := Extend(states, steps, Saving(), PersistOutcomeStep(0, 0, Committed, false), Repaired());
  }
}
