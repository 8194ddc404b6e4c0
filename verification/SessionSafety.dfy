/**
  Safety of the session protocol over whole behaviours: any interleaving of calls, storage
  faults, lost leases, crashes, detached observers and recoveries.
 */
module SessionSafety {
  import opened Wrappers
  import opened DurableUpdate
  import opened SessionLedger
  import opened SessionProtocol
  import opened SessionInvariants
  import opened SessionSteps

  // ---- Reachable states --------------------------------------------------------------

  ghost predicate Behavior(states: seq<State>, steps: seq<Step>) {
    && |states| == |steps| + 1
    && states[0] == Init()
    && forall i :: 0 <= i < |steps| ==> Enabled(states[i], steps[i]) && states[i + 1] == Next(states[i], steps[i])
  }

  lemma InitInv()
    ensures Inv(Init())
  {
    InitObserver();
    hide ObserverOk;
  }

  lemma InitObserver()
    ensures ObserverOk(Init(), 0, NewObserver(EmptyLedger(), Attached))
  {
  }

  lemma {:induction false} EveryStateKeepsInv(states: seq<State>, steps: seq<Step>, i: nat)
    requires Behavior(states, steps) && i < |states|
    ensures Inv(states[i])
  {
    hide Inv, Enabled, Next, Init;
    if i == 0 {
      InitInv();
    } else {
      EveryStateKeepsInv(states, steps, i - 1);
      StepKeepsInv(states[i - 1], steps[i - 1]);
    }
  }

  lemma StepKeepsInv(s: State, step: Step)
    requires Inv(s) && Enabled(s, step)
    ensures Inv(Next(s, step))
  {
    hide Inv, Enabled, Next, IsLocal;
    if step.ResumeStep? || step.NativeEndsStep? || step.LoseLeaseStep? || step.CrashStep? {
      EnvironmentKeeps(s, step);
    } else if IsLocal(step) {
      LocalStepsKeep(s, step);
    } else {
      SharedStepsKeep(s, step);
    }
  }

  lemma EnvironmentKeeps(s: State, step: Step)
    requires step.ResumeStep? || step.NativeEndsStep? || step.LoseLeaseStep? || step.CrashStep?
    requires Inv(s) && Enabled(s, step)
    ensures Inv(Next(s, step))
  {
    hide Inv;
    match step
    case ResumeStep => ResumeKeeps(s);
    case NativeEndsStep(runId) => NativeEndsKeeps(s, runId);
    case LoseLeaseStep(id) => LoseLeaseKeeps(s, id);
    case CrashStep(id) => CrashKeeps(s, id);
  }

  lemma CrashKeeps(s: State, id: ObserverId)
    requires Inv(s) && id in s.observers
    ensures Inv(Drop(s, id))
  {
    hide Inv, GlobalOk, ObserverOk, Evolves;
    InvAt(s, id);
    NothingEvolves(s, id);
    DropKeeps(s, s, id);
  }

  predicate IsLocal(step: Step) {
    || step.RunStep? || step.AdmitStep? || step.AdmissionReturnsStep? || step.FinishStep? || step.DecideStep?
    || step.RetryStep? || step.OtherUpdateStep? || step.BeginTransferStep? || step.EndTransferStep?
    || step.BeginDetachStep? || step.CommitDetachStep? || step.CloseStep? || step.DestroyLocalStep? || step.RestoredStep?
  }

  lemma LocalStepsOnlyMoveObservers(s: State, step: Step)
    requires IsLocal(step)
    requires Enabled(s, step)
    ensures Next(s, step) == s.(observers := Next(s, step).observers)
  {
    hide Enabled, Next;
    if step.RunStep? || step.AdmitStep? || step.AdmissionReturnsStep? || step.FinishStep? || step.DecideStep? || step.RetryStep? {
      RunningStepsOnlyMoveObservers(s, step);
    } else {
      OtherLocalStepsOnlyMoveObservers(s, step);
    }
  }

  lemma RunningStepsOnlyMoveObservers(s: State, step: Step)
    requires step.RunStep? || step.AdmitStep? || step.AdmissionReturnsStep? || step.FinishStep? || step.DecideStep? || step.RetryStep?
    requires Enabled(s, step)
    ensures Next(s, step) == s.(observers := Next(s, step).observers)
  {
    hide Run, BeginAdmit, AdmissionReturns, Decide, Finish;
  }

  lemma OtherLocalStepsOnlyMoveObservers(s: State, step: Step)
    requires IsLocal(step) && !step.RunStep? && !step.AdmitStep? && !step.AdmissionReturnsStep?
    requires !step.FinishStep? && !step.DecideStep? && !step.RetryStep?
    requires Enabled(s, step)
    ensures Next(s, step) == s.(observers := Next(s, step).observers)
  {
    hide Update, Restored, Closing, TransferAllowed, DetachAllowed;
  }

  lemma SharedStepsKeep(s: State, step: Step)
    requires Inv(s) && Enabled(s, step) && !IsLocal(step)
    requires !step.ResumeStep? && !step.NativeEndsStep? && !step.LoseLeaseStep? && !step.CrashStep?
    ensures Inv(Next(s, step))
  {
    hide Inv;
    var ob := s.observers[step.id];
    match step
    case InspectedStep(id, stop, runId) => InspectedKeeps(s, id, ob, stop, runId);
    case PersistIntentStep(id, outcome) => PersistIntentKeeps(s, id, ob, outcome);
    case StartStep(id, refused) => StartKeeps(s, id, ob, refused);
    case PersistRejectionStep(id, outcome) => PersistRejectionKeeps(s, id, ob, outcome);
    case CallStep(id) => CallKeeps(s, id, ob);
    case PersistAcceptedStep(id, outcome) => PersistAcceptedKeeps(s, id, ob, outcome);
    case PersistOutcomeStep(id, runId, outcome, again) => PersistOutcomeKeeps(s, id, ob, runId, outcome, again);
    case PersistWindowStep(id, outcome) => PersistWindowKeeps(s, id, ob, outcome);
    case AdoptStep(id, refused) => AdoptKeeps(s, id, ob, refused);
  }

  lemma LocalStepsKeep(s: State, step: Step)
    requires Inv(s) && Enabled(s, step) && IsLocal(step)
    ensures Inv(Next(s, step))
  {
    hide Inv, GlobalOk, ObserverOk, Run, BeginAdmit, AdmissionReturns, Finish, Decide, Restored, Update, Closing;
    var id := step.id;
    var ob := s.observers[id];
    InvAt(s, id);
    match step
    case RunStep(_, _, _) =>
      AdmittingStepsKeep(s, step, ob);
    case AdmitStep(_, _) =>
      AdmittingStepsKeep(s, step, ob);
    case AdmissionReturnsStep(_) =>
      AdmittingStepsKeep(s, step, ob);
    case FinishStep(_, _) =>
      EndingStepsKeep(s, step, ob);
    case DecideStep(_, _) =>
      EndingStepsKeep(s, step, ob);
    case RestoredStep(_, found) =>
      RestoredStepKeeps(s, id, ob, found);
    case OtherUpdateStep(_, outcome) =>
      CacheMoves(s, id, ob, Update(s, id, ob.cache, Some(s.durable), outcome).cache);
      LocalStep(s, id, ob.(cache := Update(s, id, ob.cache, Some(s.durable), outcome).cache));
    case RetryStep(_, runId) =>
      RetryKeeps(s, id, ob, runId);
      LocalStep(s, id, ob.(writes := ob.writes + {runId}));
    case _ =>
      FlagStepsKeep(s, step);
  }

  lemma AdmittingStepsKeep(s: State, step: Step, ob: Observer)
    requires step.RunStep? || step.AdmitStep? || step.AdmissionReturnsStep?
    requires Inv(s) && Enabled(s, step) && ob == s.observers[step.id]
    ensures Inv(Next(s, step))
  {
    hide Inv, GlobalOk, ObserverOk, Run, BeginAdmit, AdmissionReturns;
    var id := step.id;
    InvAt(s, id);
    match step
    case RunStep(_, request, payload) =>
      RunKeeps(s, id, ob, request, payload);
      LocalStep(s, id, Run(ob, request, payload));
    case AdmitStep(_, aborted) =>
      AdmitKeeps(s, id, ob, aborted);
      LocalStep(s, id, ob.(admission := BeginAdmit(ob, aborted)));
    case AdmissionReturnsStep(_) =>
      AdmissionReturnsKeeps(s, id, ob);
      LocalStep(s, id, AdmissionReturns(ob));
  }

  lemma EndingStepsKeep(s: State, step: Step, ob: Observer)
    requires step.FinishStep? || step.DecideStep?
    requires Inv(s) && Enabled(s, step) && ob == s.observers[step.id]
    ensures Inv(Next(s, step))
  {
    hide Inv, GlobalOk, ObserverOk, Finish, Decide;
    var id := step.id;
    InvAt(s, id);
    if step.FinishStep? {
      FinishKeeps(s, id, ob, step.ending);
      LocalStep(s, id, Finish(ob, step.ending));
    } else {
      DecideKeeps(s, id, ob, step.runId);
      LocalStep(s, id, Decide(ob, step.runId));
    }
  }

  lemma RestoredStepKeeps(s: State, id: ObserverId, ob: Observer, found: bool)
    requires Inv(s) && id in s.observers && s.observers[id] == ob && EnabledFor(s, RestoredStep(id, found), ob)
    ensures Inv(Put(s, id, Restored(ob, found)))
  {
    hide Inv, ObserverOk, LedgerOk, RequestsOk, CallsOk, WindowsOk, IdsOk;
    InvAt(s, id);
    RestoredKeeps(s, id, ob, found);
    LocalStep(s, id, Restored(ob, found));
  }

  lemma RetryKeeps(s: State, id: ObserverId, ob: Observer, runId: RunId)
    requires ObserverOk(s, id, ob) && runId in ob.pendingResults
    ensures ObserverOk(s, id, ob.(writes := ob.writes + {runId}))
  {
    RetryIsDecided(s, ob, runId);
    hide ObserverOk;
    BookkeepingMoves(s, id, ob, ob.writes + {runId}, ob.pendingResults);
    assert ob.(writes := ob.writes + {runId}) == ob.(writes := ob.writes + {runId}, pendingResults := ob.pendingResults);
  }

  lemma RetryIsDecided(s: State, ob: Observer, runId: RunId)
    requires FinishedOk(s, ob) && runId in ob.pendingResults
    ensures forall r :: r in ob.writes + {runId} ==> r in ob.decisions
    ensures forall r :: r in ob.pendingResults ==> r in ob.decisions && ob.decisions[r] == Keep
  {
  }

  lemma FlagStepsKeep(s: State, step: Step)
    requires Inv(s) && Enabled(s, step)
    requires || step.BeginTransferStep? || step.EndTransferStep? || step.BeginDetachStep? || step.CommitDetachStep?
             || step.CloseStep? || step.DestroyLocalStep?
    ensures Inv(Next(s, step))
  {
    hide Inv, GlobalOk, ObserverOk, Next, TransferOk, EnabledFor, Flagged, Put;
    var id := step.id;
    var ob := s.observers[id];
    InvAt(s, id);
    FlaggedIsAttached(s, id, ob);
    FlagStepIs(s, step);
    FlagChange(s, step, ob);
    var ob' := Flagged(step, ob);
    FlagsMove(s, id, ob, ob');
    LocalStep(s, id, ob');
  }

  lemma FlagChange(s: State, step: Step, ob: Observer)
    requires EnabledFor(s, step, ob) && TransferOk(ob)
    requires ob.detaching || ob.closed || ob.transfer ==> ob.resuming == Attached
    requires || step.BeginTransferStep? || step.EndTransferStep? || step.BeginDetachStep? || step.CommitDetachStep?
             || step.CloseStep? || step.DestroyLocalStep?
    ensures var ob' := Flagged(step, ob);
            && ob.resuming == Attached && TransferOk(ob')
            && ob' == ob.(detaching := ob'.detaching, detached := ob'.detached, closed := ob'.closed,
                          transfer := ob'.transfer, local := ob'.local)
  {
  }

  lemma FlagStepIs(s: State, step: Step)
    requires Enabled(s, step)
    requires || step.BeginTransferStep? || step.EndTransferStep? || step.BeginDetachStep? || step.CommitDetachStep?
             || step.CloseStep? || step.DestroyLocalStep?
    ensures Next(s, step) == Put(s, step.id, Flagged(step, s.observers[step.id]))
    ensures EnabledFor(s, step, s.observers[step.id])
  {
  }

  function Flagged(step: Step, ob: Observer): Observer {
    match step
    case BeginTransferStep(_) => if TransferAllowed(ob) then ob.(transfer := true) else ob
    case EndTransferStep(_) => ob.(transfer := false)
    case BeginDetachStep(_) => if DetachAllowed(ob) then ob.(detaching := true) else ob
    case CommitDetachStep(_) => ob.(detached := true)
    case CloseStep(_) => Closing(ob)
    case DestroyLocalStep(_) => ob.(local := Destroyed)
    case _ => ob
  }

  lemma FlaggedIsAttached(s: State, id: ObserverId, ob: Observer)
    requires ObserverOk(s, id, ob)
    ensures ob.detaching || ob.closed || ob.transfer ==> ob.resuming == Attached
    ensures TransferOk(ob)
  {
  }

  // ---- Main results ------------------------------------------------------------------

  // The native driver is called at most once per run and at most once per request id, and
  // always with the payload the ledger recorded for that request.
  lemma AtMostOnceDispatch(states: seq<State>, steps: seq<Step>, i: nat, j: nat, k: nat)
    requires Behavior(states, steps) && i < |states| && j < k < |states[i].calls|
    ensures var calls := states[i].calls;
            && calls[j].runId != calls[k].runId
            && (calls[j].request.Some? ==> calls[j].request != calls[k].request)
  {
    hide Behavior;
    EveryStateKeepsInv(states, steps, i);
    CallMatchesLedger(states[i], j);
    CallMatchesLedger(states[i], k);
  }

  lemma CallMatchesLedger(s: State, i: nat)
    requires Inv(s) && i < |s.calls|
    ensures s.calls[i].runId in s.durable.runs && s.durable.runs[s.calls[i].runId].state != Rejected
    ensures s.calls[i].request.Some? ==>
              var q := s.calls[i].request.value;
              && q in s.durable.requests
              && s.durable.requests[q].runId == s.calls[i].runId
              && s.durable.requests[q].digest == s.calls[i].payload
    ensures forall k :: 0 <= k < |s.calls| && k != i ==> s.calls[k].runId != s.calls[i].runId
  {
    hide WindowsOk, IdsOk, ObserverOk;
  }

  lemma DispatchUsesRecordedPayload(states: seq<State>, steps: seq<Step>, i: nat, j: nat)
    requires Behavior(states, steps) && i < |states| && j < |states[i].calls| && states[i].calls[j].request.Some?
    ensures var call := states[i].calls[j];
            && call.request.value in states[i].durable.requests
            && states[i].durable.requests[call.request.value].digest == call.payload
            && !states[i].durable.requests[call.request.value].rejected
  {
    hide Behavior;
    EveryStateKeepsInv(states, steps, i);
    CallMatchesLedger(states[i], j);
    assert RequestsOk(states[i]);
  }

  // Write-ahead: whatever a step does, it submits at most one input, and only one whose
  // intent is durable and active, while no other run can be executing.
  lemma SubmissionIsWriteAhead(s: State, step: Step)
    requires Inv(s) && Enabled(s, step)
    ensures var calls := Next(s, step).calls;
            || calls == s.calls
            || (step.CallStep? && |calls| == |s.calls| + 1 && s.calls <= calls && WrittenAhead(s, calls[|s.calls|]))
  {
    hide Inv, WrittenAhead, Next;
    if step.CallStep? {
      var ob := s.observers[step.id];
      CallStepIs(s, step);
      if !ob.execution.value.adopted {
        CallIsWrittenAhead(s, step.id, ob);
      }
    } else {
      OnlyCallStepsCall(s, step);
    }
  }

  lemma OnlyCallStepsCall(s: State, step: Step)
    requires Enabled(s, step) && !step.CallStep?
    ensures Next(s, step).calls == s.calls
  {
    hide Enabled, Next, IsLocal;
    if IsLocal(step) {
      LocalStepsOnlyMoveObservers(s, step);
    } else {
      SharedStepsDoNotCall(s, step);
    }
  }

  lemma SharedStepsDoNotCall(s: State, step: Step)
    requires !step.CallStep? && !IsLocal(step)
    requires Enabled(s, step)
    ensures Next(s, step).calls == s.calls
  {
    hide Update, AdmitChange, RejectChange, AcceptChange, OutcomeChange, WindowChange, StartedObserver, AdoptedObserver, Settle, Tried;
  }

  lemma CallStepIs(s: State, step: Step)
    requires Enabled(s, step) && step.CallStep?
    ensures EnabledFor(s, step, s.observers[step.id])
    ensures Next(s, step) == DoCall(s, step.id, s.observers[step.id])
  {
  }

  predicate WrittenAhead(s: State, call: Call) {
    && s.durable.active == Some(call.runId) && HasOpen(s.durable, call.runId)
    && s.durable.runs[call.runId].payload == Some(call.payload)
    && (forall r :: r in s.history ==> s.history[r].native != Live)
  }

  lemma CallIsWrittenAhead(s: State, id: ObserverId, ob: Observer)
    requires Inv(s) && id in s.observers && s.observers[id] == ob && EnabledFor(s, CallStep(id), ob)
    requires !ob.execution.value.adopted
    ensures var e := ob.execution.value; WrittenAhead(s, Call(e.runId, e.request, e.payload))
  {
    hide Inv, GlobalOk, ObserverOk;
    InvAt(s, id);
    ArmedExecution(s, id, ob);
    ArmedIsActive(s, ob.execution.value.runId);
  }

  lemma ArmedIsActive(s: State, runId: RunId)
    requires GlobalOk(s) && runId in s.history && s.history[runId].native in {Armed, Live}
    ensures s.durable.active == Some(runId) && HasOpen(s.durable, runId)
    ensures s.durable.runs[runId].payload == Some(s.history[runId].payload)
    ensures forall r :: r in s.history && s.history[r].native in {Armed, Live} ==> r == runId
  {
    hide RequestsOk, CallsOk, WindowsOk, IdsOk;
  }

  // Recovery never submits: neither resuming a session nor executing an adopted run adds a
  // native call, and what is adopted was submitted before, exactly once.
  lemma RecoveryOnlyAdopts(s: State, step: Step)
    requires Inv(s) && Enabled(s, step) && Recovers(s, step)
    ensures Next(s, step).calls == s.calls
    ensures step.AdoptStep? ==>
              step.id in s.observers && s.observers[step.id].resuming.Adopting? && CalledOnce(s.calls, s.observers[step.id].resuming.runId)
  {
    hide Inv, Enabled, Next, CalledOnce;
    if step.CallStep? {
      CallStepIs(s, step);
    } else {
      OnlyCallStepsCall(s, step);
    }
    if step.AdoptStep? {
      AdoptStepIs(s, step);
      AdoptedWasCalled(s, step.id, s.observers[step.id]);
    }
  }

  lemma AdoptStepIs(s: State, step: Step)
    requires step.AdoptStep?
    requires Enabled(s, step)
    ensures step.id in s.observers && s.observers[step.id].resuming.Adopting?
  {
  }

  // Resuming, restoring, reserving a window, adopting, and executing what was adopted.
  predicate Recovers(s: State, step: Step) {
    || step.ResumeStep? || step.RestoredStep? || step.PersistWindowStep? || step.AdoptStep?
    || (step.CallStep? && step.id in s.observers && s.observers[step.id].execution.Some? && s.observers[step.id].execution.value.adopted)
  }

  ghost predicate CalledOnce(calls: seq<Call>, runId: RunId) {
    && WasCalled(calls, runId)
    && (forall i, k :: 0 <= i < k < |calls| ==> !(calls[i].runId == runId && calls[k].runId == runId))
  }

  lemma AdoptedWasCalled(s: State, id: ObserverId, ob: Observer)
    requires Inv(s) && id in s.observers && s.observers[id] == ob && ob.resuming.Adopting?
    ensures CalledOnce(s.calls, ob.resuming.runId)
  {
    hide LedgerOk, RequestsOk, WindowsOk, IdsOk, AdmissionOk, ExecutionOk, FinishedOk, HolderOk;
    InvAt(s, id);
    assert ResumingOk(s, id, ob);
  }

  // At most one native run can be executing, and it is the active one.
  lemma AtMostOneLiveRun(states: seq<State>, steps: seq<Step>, i: nat, r: RunId)
    requires Behavior(states, steps) && i < |states|
    requires r in states[i].history && states[i].history[r].native == Live
    ensures states[i].durable.active == Some(r)
    ensures forall other: RunId :: other in states[i].history && states[i].history[other].native == Live ==> other == r
  {
    hide Behavior;
    EveryStateKeepsInv(states, steps, i);
    ArmedIsActive(states[i], r);
  }

  // The ledger in plain terms: the active run is exactly the unique open one, every request
  // points at a recorded run of its own, and requests never share a run.
  lemma LedgerIsConsistent(states: seq<State>, steps: seq<Step>, i: nat)
    requires Behavior(states, steps) && i < |states|
    ensures var l := states[i].durable;
            && (forall r: RunId :: l.active == Some(r) <==> HasOpen(l, r))
            && (forall q :: q in l.requests ==> l.requests[q].runId in l.runs)
            && (forall q: RequestId, p: RequestId :: q in l.requests && p in l.requests && l.requests[q].runId == l.requests[p].runId ==> q == p)
            && |l.requests| <= MAX_REQUESTS
  {
    hide Behavior;
    EveryStateKeepsInv(states, steps, i);
    PlainLedger(states[i]);
  }

  lemma PlainLedger(s: State)
    requires LedgerOk(s) && RequestsOk(s)
    ensures forall r: RunId :: s.durable.active == Some(r) <==> HasOpen(s.durable, r)
    ensures forall q :: q in s.durable.requests ==> s.durable.requests[q].runId in s.durable.runs
    ensures forall q: RequestId, p: RequestId ::
              (q in s.durable.requests && p in s.durable.requests && s.durable.requests[q].runId == s.durable.requests[p].runId)
              ==> q == p
  {
  }

  predicate InWindow(n: nat, w: Window) {
    w.start < n <= w.start + WINDOW
  }

  // Any two openings of a run's stream, by whichever observers, number their events apart.
  lemma StreamsNeverShareNumbers(states: seq<State>, steps: seq<Step>, i: nat, j: nat, k: nat, n: nat)
    requires Behavior(states, steps) && i < |states| && j < k < |states[i].streams|
    requires states[i].streams[j].runId == states[i].streams[k].runId
    ensures !(InWindow(n, states[i].streams[j]) && InWindow(n, states[i].streams[k]))
  {
    hide Behavior;
    EveryStateKeepsInv(states, steps, i);
    OpeningsApart(states[i], j, k);
  }

  lemma OpeningsApart(s: State, j: nat, k: nat)
    requires WindowsOk(s) && j < k < |s.streams|
    ensures Apart(s.streams[j], s.streams[k])
  {
  }

  // Does this step begin a local execution?
  predicate Begins(s: State, step: Step, s': State) {
    && (step.StartStep? || step.AdoptStep?)
    && step.id in s.observers && s.observers[step.id].execution.None?
    && step.id in s'.observers && s'.observers[step.id].execution.Some?
  }

  // A window reserved durably that no stream was opened on before.
  predicate OpensFresh(s: State, w: Window) {
    && w in s.reserved && w !in s.streams && w.runId in s.durable.runs
    && (HasOpen(s.durable, w.runId) ==>
          s.durable.runs[w.runId].highWater.Some? && w.start + WINDOW <= s.durable.runs[w.runId].highWater.value)
  }

  // Every execution that begins opens one stream, and a stream is opened in no other way: on a
  // window whose reservation is already durable, and which was never opened before.
  lemma StreamsAreReservedBeforehand(s: State, step: Step)
    requires Inv(s) && Enabled(s, step)
    ensures var s' := Next(s, step);
            if Begins(s, step, s')
            then |s'.streams| == |s.streams| + 1 && s'.streams[..|s.streams|] == s.streams && OpensFresh(s, s'.streams[|s.streams|])
            else s'.streams == s.streams
  {
    hide Inv, GlobalOk, ObserverOk, WindowUnused, HasOpen, Enabled, Next, OpensFresh, Begins;
    if step.StartStep? || step.AdoptStep? {
      BeginOpens(s, step);
      var ob := s.observers[step.id];
      if step.AdoptStep? {
        AdopterIsIdle(s, step.id, ob);
      }
      if Begins(s, step, Next(s, step)) {
        FreshWindow(s, step, ob);
      }
    } else {
      OnlyBeginningOpens(s, step);
    }
  }

  lemma OnlyBeginningOpens(s: State, step: Step)
    requires Enabled(s, step) && !step.StartStep? && !step.AdoptStep?
    ensures Next(s, step).streams == s.streams && !Begins(s, step, Next(s, step))
  {
    hide Enabled, Next, IsLocal;
    if IsLocal(step) {
      LocalStepsOnlyMoveObservers(s, step);
    } else {
      SharedStepsDoNotOpen(s, step);
    }
  }

  lemma SharedStepsDoNotOpen(s: State, step: Step)
    requires !step.StartStep? && !step.AdoptStep? && !IsLocal(step)
    requires Enabled(s, step)
    ensures Next(s, step).streams == s.streams
  {
    hide Update, AdmitChange, RejectChange, AcceptChange, OutcomeChange, WindowChange, Settle, Tried;
  }

  predicate MayBegin(step: Step, ob: Observer) {
    (step.StartStep? && ob.admission.Persisted?) || (step.AdoptStep? && ob.resuming.Adopting?)
  }

  // The window an observer that begins an execution opens.
  function OpeningOf(step: Step, ob: Observer): Window
    requires MayBegin(step, ob)
  {
    if step.StartStep? then Window(ob.admission.runId, 0) else Window(ob.resuming.runId, ob.resuming.previous)
  }

  predicate OpensAsItBegins(s: State, step: Step, s': State) {
    && (step.StartStep? || step.AdoptStep?) && step.id in s.observers && MayBegin(step, s.observers[step.id])
    && (if Begins(s, step, s') then s'.streams == s.streams + [OpeningOf(step, s.observers[step.id])]
        else (step.AdoptStep? && s.observers[step.id].execution.Some?) || s'.streams == s.streams)
  }

  lemma BeginOpens(s: State, step: Step)
    requires Enabled(s, step) && (step.StartStep? || step.AdoptStep?)
    ensures OpensAsItBegins(s, step, Next(s, step))
  {
  }

  lemma AdopterIsIdle(s: State, id: ObserverId, ob: Observer)
    requires Inv(s) && id in s.observers && s.observers[id] == ob && ob.resuming.Adopting?
    ensures ob.execution.None?
  {
    hide Inv, GlobalOk, AdmissionOk, ExecutionOk, FinishedOk, TransferOk, HolderOk;
    InvAt(s, id);
  }

  lemma FreshWindow(s: State, step: Step, ob: Observer)
    requires Inv(s) && (step.StartStep? || step.AdoptStep?) && step.id in s.observers && s.observers[step.id] == ob
    requires MayBegin(step, ob)
    ensures OpensFresh(s, OpeningOf(step, ob))
  {
    hide Inv, GlobalOk, ObserverOk, WindowUnused, HasOpen, AdmissionOk;
    InvAt(s, step.id);
    if step.StartStep? {
      PersistedInHistory(s, step.id, ob);
      PersistedFacts(s, step.id, ob);
    } else {
      AdoptingFacts(s, step.id, ob);
    }
    UnusedIsReserved(s, step.id, OpeningOf(step, ob));
    ReservedIsDurable(s, OpeningOf(step, ob));
  }

  lemma PersistedInHistory(s: State, id: ObserverId, ob: Observer)
    requires ObserverOk(s, id, ob) && ob.admission.Persisted?
    ensures ob.admission.runId in s.history
  {
  }

  lemma UnusedIsReserved(s: State, id: ObserverId, w: Window)
    requires WindowUnused(s, id, w)
    ensures w in s.reserved && w !in s.streams
  {
  }

  lemma ReservedIsDurable(s: State, w: Window)
    requires GlobalOk(s) && w in s.reserved
    ensures w.runId in s.durable.runs
    ensures HasOpen(s.durable, w.runId) ==>
              s.durable.runs[w.runId].highWater.Some? && w.start + WINDOW <= s.durable.runs[w.runId].highWater.value
  {
    hide RequestsOk, CallsOk, IdsOk;
  }

  // A file transfer never overlaps an admission or an executing run of its observer, and a
  // second transfer is refused.
  lemma TransfersAreExclusive(states: seq<State>, steps: seq<Step>, i: nat, id: ObserverId)
    requires Behavior(states, steps) && i < |states| && id in states[i].observers && states[i].observers[id].transfer
    ensures states[i].observers[id].admission == Idle && states[i].observers[id].execution == None
    ensures !TransferAllowed(states[i].observers[id])
    ensures forall request, payload :: RunReplyTo(states[i].observers[id], request, payload) == Refuse
  {
    hide Behavior, GlobalOk;
    EveryStateKeepsInv(states, steps, i);
    InvAt(states[i], id);
  }

  // ---- Outcomes are permanent --------------------------------------------------------

  // Closed records never change, requests are never repointed.
  ghost predicate Preserves(l: Ledger, l': Ledger) {
    && (forall r :: r in l.runs && !IsOpen(l.runs[r]) ==> r in l'.runs && l'.runs[r] == l.runs[r])
    && (forall q :: q in l.requests ==>
          && q in l'.requests && l'.requests[q].runId == l.requests[q].runId && l'.requests[q].digest == l.requests[q].digest
          && (l.requests[q].rejected ==> l'.requests[q].rejected))
  }

  lemma StepPreserves(s: State, step: Step)
    requires Inv(s) && Enabled(s, step)
    ensures Preserves(s.durable, Next(s, step).durable)
  {
    hide Inv, Preserves;
    PreservesItself(s.durable);
    if !step.ResumeStep? && !step.NativeEndsStep? {
      WritePreserves(s, step, s.observers[step.id]);
    }
  }

  lemma PreservesItself(l: Ledger)
    ensures Preserves(l, l)
  {
  }

  lemma WritePreserves(s: State, step: Step, ob: Observer)
    requires Inv(s) && Enabled(s, step) && !step.ResumeStep? && !step.NativeEndsStep? && ob == s.observers[step.id]
    ensures Preserves(s.durable, NextFor(s, step, ob).durable)
  {
    hide Inv, Preserves, NextFor, Put;
    PreservesItself(s.durable);
    if step.PersistIntentStep? || step.PersistRejectionStep? || step.PersistAcceptedStep? || step.PersistOutcomeStep? || step.PersistWindowStep? {
      WriteStepPreserves(s, step, ob);
    } else {
      OtherStepsWriteNothing(s, step, ob);
    }
  }

  lemma WriteStepPreserves(s: State, step: Step, ob: Observer)
    requires step.PersistIntentStep? || step.PersistRejectionStep? || step.PersistAcceptedStep? || step.PersistOutcomeStep? || step.PersistWindowStep?
    requires Inv(s) && Enabled(s, step) && ob == s.observers[step.id]
    ensures Preserves(s.durable, NextFor(s, step, ob).durable)
  {
    hide Inv, GlobalOk, ObserverOk, Preserves, Update, AdmitChange, RejectChange, SetState, ResultChange, UnknownChange,
         WindowChange, HasOpen, Kept, Put, Tried, Settle, Drop, OutcomeChange;
    InvAt(s, step.id);
    var id := step.id;
    match step
    case PersistIntentStep(_, outcome) => IntentPreserves(s, id, ob, outcome);
    case PersistRejectionStep(_, outcome) => RejectionPreserves(s, id, ob, outcome);
    case PersistAcceptedStep(_, outcome) => AcceptancePreserves(s, id, ob, outcome);
    case PersistOutcomeStep(_, runId, outcome, again) => OutcomePreserves(s, id, ob, runId, outcome, again);
    case PersistWindowStep(_, outcome) => WindowPreserves(s, id, ob, outcome);
  }

  lemma OtherStepsWriteNothing(s: State, step: Step, ob: Observer)
    requires !step.ResumeStep? && !step.NativeEndsStep? && EnabledFor(s, step, ob)
    requires !step.PersistIntentStep? && !step.PersistRejectionStep? && !step.PersistAcceptedStep?
    requires !step.PersistOutcomeStep? && !step.PersistWindowStep?
    ensures NextFor(s, step, ob).durable == s.durable
  {
  }

  lemma IntentPreserves(s: State, id: ObserverId, ob: Observer, outcome: Outcome)
    requires GlobalOk(s) && ObserverOk(s, id, ob) && ob.admission.Persisting?
    ensures Preserves(s.durable, DoPersistIntent(s, id, ob, outcome).durable)
  {
    hide Update, GlobalOk, ObserverOk;
    IntentIsNew(s, id, ob);
    hide PendingIntent, Tried, Put;
    AdmissionPreserves(s, id, ob.admission);
    hide Preserves;
    PreservesItself(s.durable);
  }

  lemma AdmissionPreserves(s: State, id: ObserverId, a: Admission)
    requires a.Persisting? && PendingIntent(s, id, a)
    ensures s.lease == Some(id) && AdmitChange(s.durable, a.runId, a.request, a.payload).Some? ==>
              Preserves(s.durable, AdmitChange(s.durable, a.runId, a.request, a.payload).value)
  {
  }

  lemma RejectionPreserves(s: State, id: ObserverId, ob: Observer, outcome: Outcome)
    requires GlobalOk(s) && ObserverOk(s, id, ob) && ob.admission.Rejecting?
    ensures Preserves(s.durable, DoPersistRejection(s, id, ob, outcome).durable)
  {
    hide Update, ObserverOk, LedgerOk, CallsOk, WindowsOk, IdsOk, DoneWith, RequestsOk, Rewrites, HasOpen, Owns;
    RejectionFacts(s, id, ob);
    RejectPreserves(s, id, ob.admission);
    hide Preserves, RejectChange;
    PreservesItself(s.durable);
  }

  lemma RejectPreserves(s: State, id: ObserverId, a: Admission)
    requires a.Rejecting? && RequestsOk(s) && Owns(s, id, a.runId, a.request, a.payload, Refused) && HasOpen(s.durable, a.runId)
    ensures Preserves(s.durable, RejectChange(s.durable, a.runId, a.request, a.payload))
  {
  }

  lemma RelabelPreserves(s: State, runId: RunId, state: RunState)
    requires HasOpen(s.durable, runId)
    ensures Preserves(s.durable, SetState(s.durable, runId, state))
  {
  }

  lemma AcceptancePreserves(s: State, id: ObserverId, ob: Observer, outcome: Outcome)
    requires ObserverOk(s, id, ob) && ob.execution.Some? && ob.execution.value.stage == Called
    ensures Preserves(s.durable, DoPersistAccepted(s, id, ob, outcome).durable)
  {
    hide Update, ObserverOk, Preserves, SetState, HasOpen;
    AcceptedOwn(s, id, ob);
    PreservesItself(s.durable);
    if s.lease == Some(id) {
      RelabelPreserves(s, ob.execution.value.runId, Observing);
    }
  }

  lemma OutcomePreserves(s: State, id: ObserverId, ob: Observer, runId: RunId, outcome: Outcome, again: bool)
    requires ObserverOk(s, id, ob) && runId in ob.decisions && runId in ob.finished
    ensures Preserves(s.durable, DoPersistOutcome(s, id, ob, runId, outcome, again).durable)
  {
    hide Update, ObserverOk, Preserves, OutcomeChange, HasOpen, Kept, Settle, SetState;
    PreservesItself(s.durable);
    if s.lease == Some(id) {
      OutcomeFacts(s, id, ob, runId);
      if ob.decisions[runId] == Keep {
        ResultFacts(s, id, ob, runId);
        ResultPreserves(s, ob, runId);
      } else {
        UnknownIsRelabel(s, ob, runId);
        RelabelPreserves(s, runId, Unknown);
      }
    }
  }

  lemma ResultPreserves(s: State, ob: Observer, runId: RunId)
    requires runId in ob.decisions && runId in ob.finished && ob.decisions[runId] == Keep
    requires Kept(s, runId, ob.finished[runId].result)
    ensures Preserves(s.durable, OutcomeChange(s, ob, runId))
  {
  }

  lemma WindowPreserves(s: State, id: ObserverId, ob: Observer, outcome: Outcome)
    requires ObserverOk(s, id, ob) && ob.resuming.Reserving?
    ensures Preserves(s.durable, DoPersistWindow(s, id, ob, outcome).durable)
  {
    hide Update;
    if s.lease == Some(id) {
      ReservingFacts(s, id, ob);
    }
    hide ObserverOk;
  }

  // Terminal results, rejections and the meaning of request ids hold for the rest of the run.
  lemma {:induction false} OutcomesArePermanent(states: seq<State>, steps: seq<Step>, i: nat, j: nat)
    requires Behavior(states, steps) && i <= j < |states|
    ensures Preserves(states[i].durable, states[j].durable)
    decreases j
  {
    hide Inv, Enabled, Next, Init, Preserves;
    if i == j {
      PreservesItself(states[i].durable);
    } else {
      OutcomesArePermanent(states, steps, i, j - 1);
      EveryStateKeepsInv(states, steps, j - 1);
      StepPreserves(states[j - 1], steps[j - 1]);
      PreservesIsTransitive(states[i].durable, states[j - 1].durable, states[j].durable);
    }
  }

  lemma PreservesIsTransitive(a: Ledger, b: Ledger, c: Ledger)
    requires Preserves(a, b) && Preserves(b, c)
    ensures Preserves(a, c)
  {
  }

  // The ledger calls a run terminal only when its native execution is over, and keeps a
  // result for it.
  lemma TerminalMeansOver(states: seq<State>, steps: seq<Step>, i: nat, r: RunId)
    requires Behavior(states, steps) && i < |states|
    requires r in states[i].durable.runs && states[i].durable.runs[r].state == Terminal
    ensures r in states[i].history && states[i].history[r].native == Dead
    ensures states[i].durable.runs[r].result.Some? && states[i].durable.active != Some(r)
  {
    hide Behavior;
    EveryStateKeepsInv(states, steps, i);
    assert LedgerOk(states[i]);
  }

  // What the ledger once called rejected is never given to the driver, at any later time.
  lemma RejectedIsNeverDispatched(states: seq<State>, steps: seq<Step>, i: nat, j: nat, r: RunId)
    requires Behavior(states, steps) && i <= j < |states|
    requires r in states[i].durable.runs && states[i].durable.runs[r].state == Rejected
    ensures !WasCalled(states[j].calls, r)
  {
    hide Behavior;
    OutcomesArePermanent(states, steps, i, j);
    EveryStateKeepsInv(states, steps, j);
    RejectedWasNotCalled(states[j], r);
  }

  lemma RejectedWasNotCalled(s: State, r: RunId)
    requires LedgerOk(s) && CallsOk(s) && r in s.durable.runs && s.durable.runs[r].state == Rejected
    ensures !WasCalled(s.calls, r)
  {
  }
}
