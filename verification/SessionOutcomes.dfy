/**
  What becomes of runs, handles and observers over whole behaviours: refusals are for good,
  observers that left or failed start nothing, `getRun` answers truthfully, and no two events
  of a run are published under one number.
 */
module SessionOutcomes {
  import opened Wrappers
  import opened DurableUpdate
  import opened SessionLedger
  import opened SessionProtocol
  import opened SessionInvariants
  import opened SessionSafety
  import J = Journal

  // ---- How far a run can get ---------------------------------------------------------

  predicate NativeMoves(a: NativeStatus, b: NativeStatus) {
    b == a || (a == Reserved && b in {Refused, Armed}) || (a == Armed && b == Live) || (a == Live && b == Dead)
  }

  ghost predicate HistoryMoves(s: State, s': State) {
    forall r :: r in s.history ==> r in s'.history && NativeMoves(s.history[r].native, s'.history[r].native)
  }

  lemma StepMovesHistory(s: State, step: Step)
    requires Inv(s) && Enabled(s, step)
    ensures HistoryMoves(s, Next(s, step))
  {
    hide Inv, Next, HistoryMoves;
    match step
    case StartStep(id, _) => StartMovesHistory(s, step, s.observers[id]);
    case CallStep(id) => CallMovesHistory(s, step, s.observers[id]);
    case InspectedStep(_, _, _) => InspectedMovesHistory(s, step);
    case NativeEndsStep(_) => InspectedMovesHistory(s, step);
    case _ => OthersLeaveHistory(s, step);
  }

  lemma StartMovesHistory(s: State, step: Step, ob: Observer)
    requires Inv(s) && Enabled(s, step) && step.StartStep? && ob == s.observers[step.id]
    ensures HistoryMoves(s, Next(s, step))
  {
    hide Inv, GlobalOk, ExecutionOk, FinishedOk, ResumingOk, TransferOk, HolderOk;
    InvAt(s, step.id);
    assert AdmissionOk(s, step.id, ob);
  }

  lemma CallMovesHistory(s: State, step: Step, ob: Observer)
    requires Inv(s) && Enabled(s, step) && step.CallStep? && ob == s.observers[step.id]
    ensures HistoryMoves(s, Next(s, step))
  {
    hide Inv, GlobalOk, AdmissionOk, FinishedOk, ResumingOk, TransferOk, HolderOk;
    InvAt(s, step.id);
    assert ExecutionOk(s, step.id, ob);
  }

  lemma InspectedMovesHistory(s: State, step: Step)
    requires Enabled(s, step) && (step.InspectedStep? || step.NativeEndsStep?)
    ensures HistoryMoves(s, Next(s, step))
  {
  }

  lemma OthersLeaveHistory(s: State, step: Step)
    requires Enabled(s, step) && !step.StartStep? && !step.CallStep? && !step.InspectedStep? && !step.NativeEndsStep?
    ensures HistoryMoves(s, Next(s, step))
  {
    hide Enabled, Next, HistoryMoves, IsLocal;
    if IsLocal(step) {
      LocalStepsOnlyMoveObservers(s, step);
    } else {
      WritesLeaveHistory(s, step);
    }
    SameHistory(s, Next(s, step));
  }

  lemma WritesLeaveHistory(s: State, step: Step)
    requires !step.StartStep? && !step.CallStep? && !step.InspectedStep? && !step.NativeEndsStep? && !IsLocal(step)
    requires Enabled(s, step)
    ensures Next(s, step).history == s.history
  {
    hide Update, AdmitChange, RejectChange, AcceptChange, OutcomeChange, WindowChange, AdoptedObserver, Settle, Tried;
  }

  lemma SameHistory(s: State, s': State)
    requires s'.history == s.history
    ensures HistoryMoves(s, s')
  {
  }

  // A run whose start was refused is refused for good, and is never given to the driver.
  lemma {:induction false} RefusalsAreFinal(states: seq<State>, steps: seq<Step>, i: nat, j: nat, r: RunId)
    requires Behavior(states, steps) && i <= j < |states|
    requires r in states[i].history && states[i].history[r].native == Refused
    ensures r in states[j].history && states[j].history[r].native == Refused
    ensures !WasCalled(states[j].calls, r)
    decreases j
  {
    hide Inv, Enabled, Next, Init, WasCalled;
    if i < j {
      RefusalsAreFinal(states, steps, i, j - 1, r);
      EveryStateKeepsInv(states, steps, j - 1);
      StepMovesHistory(states[j - 1], steps[j - 1]);
    }
    EveryStateKeepsInv(states, steps, j);
    RefusedWasNotCalled(states[j], r);
  }

  lemma RefusedWasNotCalled(s: State, r: RunId)
    requires Inv(s) && r in s.history && s.history[r].native == Refused
    ensures !WasCalled(s.calls, r)
  {
    hide ObserverOk, LedgerOk, RequestsOk, WindowsOk, IdsOk;
  }

  // Recording acceptance changes at most the state of the accepted run's own record.
  lemma AcceptanceTouchesOnlyItsRun(s: State, id: ObserverId, ob: Observer, outcome: Outcome)
    requires ob.execution.Some?
    ensures var d, r := DoPersistAccepted(s, id, ob, outcome).durable, ob.execution.value.runId;
            && d.active == s.durable.active && d.requests == s.durable.requests && d.runs.Keys == s.durable.runs.Keys
            && (forall q :: q in d.runs && q != r ==> d.runs[q] == s.durable.runs[q])
            && (r in d.runs ==> d.runs[r] == s.durable.runs[r] || d.runs[r] == s.durable.runs[r].(state := Observing))
  {
    hide Update;
  }

  // Reserving the next window either makes the window durable and its observer its owner, or
  // abandons the recovery: the observer is gone, without the lease, and nothing was opened.
  lemma ReservedOrAbandoned(s: State, id: ObserverId, ob: Observer, outcome: Outcome)
    requires id in s.observers && s.observers[id] == ob && ob.resuming.Reserving?
    ensures var r, s' := ob.resuming, DoPersistWindow(s, id, ob, outcome);
            if id in s'.observers then
              && s'.observers[id].resuming == Adopting(r.runId, r.previous)
              && r.runId in s'.durable.runs && s'.durable.runs[r.runId].highWater == Some(r.previous + WINDOW)
              && Window(r.runId, r.previous) in s'.reserved && s'.reserved[Window(r.runId, r.previous)] == id
            else s'.lease != Some(id) && s'.streams == s.streams && s'.reserved == s.reserved
  {
    hide Update;
  }

  // ---- How one observer moves --------------------------------------------------------

  predicate SameHandles(ob: Observer, ob': Observer) {
    ob'.tracked == ob.tracked && ob'.decisions == ob.decisions
  }

  // The flags for leaving are never taken back, and flags have steps of their own. Only two
  // steps hand out runs, one decides on results, two start an execution, and one makes an
  // admission ready to start.
  predicate Moved(step: Step, ob: Observer, ob': Observer) {
    && (ob.detached ==> ob'.detached) && (ob.closed ==> ob'.closed)
    && (SameHandles(ob, ob') || step.AdmissionReturnsStep? || step.AdoptStep? || step.DecideStep?)
    && (Quiet(ob, ob') || (step.StartStep? && !Left(ob) && ob.local == Ready) || step.AdoptStep?)
    && (ob.resuming == Attached ==> ob'.resuming == Attached)
    && (SameFlags(ob, ob') || IsFlagStep(step))
    && (SameResults(ob, ob') || step.FinishStep? || step.DecideStep? || step.PersistOutcomeStep?)
    && (ob'.admission.Persisted? ==> ob'.admission == ob.admission || step.PersistIntentStep?)
    && (ob'.admission.LookingUp? ==> ob'.admission == ob.admission || step.AdmitStep?)
    && (ob'.known == ob.known || step.RunStep?)
  }

  predicate SameFlags(ob: Observer, ob': Observer) {
    ob'.transfer == ob.transfer && ob'.detaching == ob.detaching && ob'.detached == ob.detached && ob'.closed == ob.closed
  }

  predicate SameResults(ob: Observer, ob': Observer) {
    ob'.finished == ob.finished && ob'.decisions == ob.decisions && ob'.pendingResults == ob.pendingResults
  }

  predicate IsFlagStep(step: Step) {
    || step.BeginTransferStep? || step.EndTransferStep? || step.BeginDetachStep? || step.CommitDetachStep?
    || step.CloseStep? || step.DestroyLocalStep?
  }

  // Executes nothing new, and does not come back from a failure.
  predicate Quiet(ob: Observer, ob': Observer) {
    && (ob'.execution.Some? ==> ob.execution.Some? && ob'.execution.value.runId == ob.execution.value.runId)
    && (ob.local in {Failed, Destroyed} && ob.execution == None ==> ob'.local in {Failed, Destroyed})
  }

  predicate Left(ob: Observer) {
    ob.detached || ob.closed
  }

  // Step `step` of observer `id` leads to `s'`: nobody else moves.
  ghost predicate MovesOne(s: State, step: Step, id: ObserverId, ob: Observer, s': State) {
    && s'.observers - {id} == s.observers - {id}
    && s'.nextObserver == s.nextObserver
    && (id in s'.observers ==> Moved(step, ob, s'.observers[id]) && CacheMovesOn(s, step, id, s'.observers[id], s'))
    && (s'.lease == s.lease || (s.lease == Some(id) && s'.lease == None && (step.LoseLeaseStep? || id !in s'.observers)))
    && (id !in s'.observers ==> s'.lease != Some(id))
  }

  // The cached record stays, or becomes the durable one from before or after the step; an
  // admission gets ready to start only with the record that names it.
  predicate CacheMovesOn(s: State, step: Step, id: ObserverId, ob': Observer, s': State) {
    && id in s.observers && ob'.cache in {s.observers[id].cache, s.durable, s'.durable}
    && (step.PersistIntentStep? && ob'.admission.Persisted? ==>
          ob'.cache == s'.durable && s.lease == Some(id) && s.observers[id].admission.Persisting?)
  }

  lemma EveryStepMovesOne(s: State, step: Step, ob: Observer)
    requires Enabled(s, step) && !step.ResumeStep? && !step.NativeEndsStep? && ob == s.observers[step.id]
    ensures MovesOne(s, step, step.id, ob, NextFor(s, step, ob))
  {
    hide NextFor, MovesOne;
    match step
    case RunStep(_, _, _) => RunStepMoves(s, step, ob);
    case AdmitStep(_, _) => AdmitStepMoves(s, step, ob);
    case AdmissionReturnsStep(_) => ReturnsStepMoves(s, step, ob);
    case InspectedStep(_, _, _) => InspectedStepMoves(s, step, ob);
    case PersistIntentStep(_, _) => IntentStepMoves(s, step, ob);
    case StartStep(_, _) => StartStepMoves(s, step, ob);
    case PersistRejectionStep(_, _) => RejectionStepMoves(s, step, ob);
    case PersistAcceptedStep(_, _) => AcceptedStepMoves(s, step, ob);
    case CallStep(_) => CallStepMoves(s, step, ob);
    case FinishStep(_, _) => FinishStepMoves(s, step, ob);
    case DecideStep(_, _) => DecideStepMoves(s, step, ob);
    case PersistOutcomeStep(_, _, _, _) => OutcomeStepMoves(s, step, ob);
    case RetryStep(_, _) => RetryStepMoves(s, step, ob);
    case OtherUpdateStep(_, _) => UpdateStepMoves(s, step, ob);
    case LoseLeaseStep(_) => LoseLeaseStepMoves(s, step, ob);
    case CrashStep(_) => CrashStepMoves(s, step, ob);
    case RestoredStep(_, _) => RestoredStepMoves(s, step, ob);
    case PersistWindowStep(_, _) => WindowStepMoves(s, step, ob);
    case AdoptStep(_, _) => AdoptStepMoves(s, step, ob);
    case _ => FlagStepMoves(s, step, ob);
  }

  // The shared part moved from `s` to `s1`, then the observer to `ob'`.
  lemma PutMovesOne(s: State, s1: State, step: Step, ob: Observer, ob': Observer)
    requires !step.ResumeStep? && !step.NativeEndsStep? && !step.PersistIntentStep?
    requires step.id in s.observers && s.observers[step.id] == ob && Moved(step, ob, ob')
    requires s1.observers == s.observers && s1.nextObserver == s.nextObserver && s1.lease == s.lease
    requires ob'.cache in {ob.cache, s.durable, s1.durable}
    ensures MovesOne(s, step, step.id, ob, Put(s1, step.id, ob'))
  {
    hide Moved;
  }

  lemma DropMovesOne(s: State, s1: State, step: Step, ob: Observer)
    requires !step.ResumeStep? && !step.NativeEndsStep? && step.id in s.observers
    requires s1.observers == s.observers && s1.nextObserver == s.nextObserver && s1.lease == s.lease
    ensures MovesOne(s, step, step.id, ob, Drop(s1, step.id))
  {
    hide Moved;
  }

  lemma AdmissionMovesOnly(step: Step, ob: Observer, a: Admission)
    requires a.Persisted? ==> a == ob.admission
    requires a.LookingUp? ==> a == ob.admission || step.AdmitStep?
    ensures Moved(step, ob, ob.(admission := a))
  {
  }

  lemma CacheMovesOnly(step: Step, ob: Observer, cache: Ledger)
    ensures Moved(step, ob, ob.(cache := cache))
  {
  }

  lemma RunMoves(step: Step, ob: Observer, request: Option<RequestId>, payload: Payload)
    requires step.RunStep?
    ensures Moved(step, ob, Run(ob, request, payload)) && Run(ob, request, payload).cache == ob.cache
  {
    hide RunReplyTo;
  }

  lemma RunStepMoves(s: State, step: Step, ob: Observer)
    requires step.RunStep?
    requires Enabled(s, step) && ob == s.observers[step.id]
    ensures MovesOne(s, step, step.id, ob, NextFor(s, step, ob))
  {
    hide MovesOne, Moved, Put, Run;
    RunMoves(step, ob, step.request, step.payload);
    var ob' := Run(ob, step.request, step.payload);
    assert NextFor(s, step, ob) == Put(s, step.id, ob');
    PutMovesOne(s, s, step, ob, ob');
  }

  lemma AdmitStepMoves(s: State, step: Step, ob: Observer)
    requires step.AdmitStep?
    requires Enabled(s, step) && ob == s.observers[step.id]
    ensures MovesOne(s, step, step.id, ob, NextFor(s, step, ob))
  {
    hide MovesOne, Moved, Put, BeginAdmit;
    AdmissionMovesOnly(step, ob, BeginAdmit(ob, step.aborted));
    var ob' := ob.(admission := BeginAdmit(ob, step.aborted));
    assert NextFor(s, step, ob) == Put(s, step.id, ob');
    PutMovesOne(s, s, step, ob, ob');
  }

  lemma ReturnsMoves(step: Step, ob: Observer)
    requires step.AdmissionReturnsStep? && (ob.admission.Started? || ob.admission.LookingUp?)
    ensures Moved(step, ob, AdmissionReturns(ob)) && AdmissionReturns(ob).cache == ob.cache
  {
  }

  lemma ReturnsStepMoves(s: State, step: Step, ob: Observer)
    requires step.AdmissionReturnsStep?
    requires Enabled(s, step) && ob == s.observers[step.id]
    ensures MovesOne(s, step, step.id, ob, NextFor(s, step, ob))
  {
    hide MovesOne, Moved, Put, AdmissionReturns;
    ReturnsMoves(step, ob);
    var ob' := AdmissionReturns(ob);
    assert NextFor(s, step, ob) == Put(s, step.id, ob');
    PutMovesOne(s, s, step, ob, ob');
  }

  lemma InspectedStepMoves(s: State, step: Step, ob: Observer)
    requires step.InspectedStep?
    requires Enabled(s, step) && ob == s.observers[step.id]
    ensures MovesOne(s, step, step.id, ob, NextFor(s, step, ob))
  {
    hide MovesOne, Moved, Put;
    var a := ob.admission;
    AdmissionMovesOnly(step, ob, Idle);
    AdmissionMovesOnly(step, ob, Persisting(a.request, a.payload, step.runId));
    if step.stop || ob.cache.active.Some? {
      PutMovesOne(s, s, step, ob, ob.(admission := Idle));
    } else {
      var s1 := s.(history := s.history[step.runId := Origin(a.request, a.payload, step.id, Reserved)]);
      var ob' := ob.(admission := Persisting(a.request, a.payload, step.runId));
      PutMovesOne(s, s1, step, ob, ob');
      HistoryCommutes(s, s1, step.id, ob');
    }
  }

  lemma HistoryCommutes(s: State, s1: State, id: ObserverId, ob': Observer)
    requires s1 == s.(history := s1.history)
    ensures Put(s1, id, ob') == Put(s, id, ob').(history := s1.history)
  {
  }

  lemma TriedMoves(step: Step, ob: Observer)
    requires ob.admission.Persisting? && step.PersistIntentStep?
    ensures forall c: Ledger, a: Admission :: !a.LookingUp? ==> Moved(step, ob, Tried(ob).(cache := c, admission := a))
  {
  }

  lemma IntentStepMoves(s: State, step: Step, ob: Observer)
    requires step.PersistIntentStep?
    requires Enabled(s, step) && ob == s.observers[step.id]
    ensures MovesOne(s, step, step.id, ob, NextFor(s, step, ob))
  {
    hide MovesOne, Moved, Tried, Update, AdmitChange;
    TriedMoves(step, ob);
    var a := ob.admission;
    var u := Update(s, step.id, ob.cache, AdmitChange(s.durable, a.runId, a.request, a.payload), step.outcome);
    var ob' := Tried(ob).(cache := u.cache, admission := if u.ok then Persisted(a.request, a.payload, a.runId) else Idle);
    var s' := NextFor(s, step, ob);
    assert s'.observers == s.observers[step.id := ob'] && s'.durable == u.durable;
    IntentMovesOne(s, step, ob, ob', s');
  }

  lemma IntentMovesOne(s: State, step: Step, ob: Observer, ob': Observer, s': State)
    requires step.PersistIntentStep? && step.id in s.observers && s.observers[step.id] == ob && ob.admission.Persisting?
    requires s'.observers == s.observers[step.id := ob'] && s'.nextObserver == s.nextObserver && s'.lease == s.lease
    requires Moved(step, ob, ob') && ob'.cache in {ob.cache, s.durable, s'.durable}
    requires ob'.admission.Persisted? ==> ob'.cache == s'.durable && s.lease == Some(step.id)
    ensures MovesOne(s, step, step.id, ob, s')
  {
    hide Moved;
  }

  lemma StartedMoves(step: Step, ob: Observer)
    requires step.StartStep? && ob.admission.Persisted? && !Left(ob) && ob.local == Ready
    ensures Moved(step, ob, StartedObserver(ob)) && StartedObserver(ob).cache == ob.cache
  {
  }

  lemma StreamsCommute(s: State, id: ObserverId, ob': Observer, runId: RunId, native: NativeStatus, streams: seq<Window>)
    requires runId in s.history
    ensures SetNative(Put(s, id, ob'), runId, native) == Put(SetNative(s, runId, native), id, ob')
    ensures SetNative(Put(s, id, ob'), runId, native).(streams := streams) == Put(SetNative(s, runId, native).(streams := streams), id, ob')
  {
  }

  lemma StartStepMoves(s: State, step: Step, ob: Observer)
    requires step.StartStep?
    requires Enabled(s, step) && ob == s.observers[step.id]
    ensures MovesOne(s, step, step.id, ob, NextFor(s, step, ob))
  {
    hide MovesOne, DoStart;
    assert NextFor(s, step, ob) == DoStart(s, step.id, ob, step.refused);
    DoStartMoves(s, step, ob);
  }

  lemma DoStartMoves(s: State, step: Step, ob: Observer)
    requires step.StartStep? && step.id in s.observers && ob == s.observers[step.id]
    requires ob.admission.Persisted? && ob.admission.runId in s.history
    ensures MovesOne(s, step, step.id, ob, DoStart(s, step.id, ob, step.refused))
  {
    hide MovesOne, Moved, StartedObserver, Put, SetNative;
    var a := ob.admission;
    var rejecting := Rejecting(a.request, a.payload, a.runId);
    SharedUnmoved(s, a.runId);
    if step.refused || ob.closed || ob.detached || ob.local != Ready || ob.execution.Some? {
      AdmissionMovesOnly(step, ob, rejecting);
      StreamsCommute(s, step.id, ob.(admission := rejecting), a.runId, Refused, s.streams);
      PutMovesOne(s, SetNative(s, a.runId, Refused), step, ob, ob.(admission := rejecting));
    } else {
      var streams := s.streams + [Window(a.runId, 0)];
      StartedMoves(step, ob);
      StreamsCommute(s, step.id, StartedObserver(ob), a.runId, Armed, streams);
      PutMovesOne(s, SetNative(s, a.runId, Armed).(streams := streams), step, ob, StartedObserver(ob));
    }
  }

  lemma SharedUnmoved(s: State, runId: RunId)
    requires runId in s.history
    ensures forall native :: var s1 := SetNative(s, runId, native);
              s1.observers == s.observers && s1.nextObserver == s.nextObserver && s1.lease == s.lease && s1.streams == s.streams
  {
  }

  lemma IdleCacheMoves(step: Step, ob: Observer, cache: Ledger)
    ensures Moved(step, ob, ob.(admission := Idle).(cache := cache))
  {
  }

  lemma RejectionStepMoves(s: State, step: Step, ob: Observer)
    requires step.PersistRejectionStep?
    requires Enabled(s, step) && ob == s.observers[step.id]
    ensures MovesOne(s, step, step.id, ob, NextFor(s, step, ob))
  {
    hide MovesOne, Moved, Put, Update, RejectChange;
    var a := ob.admission;
    var u := Update(s, step.id, ob.cache, Some(RejectChange(s.durable, a.runId, a.request, a.payload)), step.outcome);
    IdleCacheMoves(step, ob, u.cache);
    PutMovesOne(s, s.(durable := u.durable), step, ob, ob.(admission := Idle).(cache := u.cache));
  }

  lemma StageMoves(step: Step, ob: Observer, e: Execution)
    requires ob.execution.Some? && e.runId == ob.execution.value.runId
    ensures Moved(step, ob, ob.(execution := Some(e)))
  {
  }

  lemma StageCacheMoves(step: Step, ob: Observer, e: Execution, cache: Ledger)
    requires ob.execution.Some? && e.runId == ob.execution.value.runId
    ensures Moved(step, ob, ob.(execution := Some(e)).(cache := cache))
  {
  }

  lemma AcceptedStepMoves(s: State, step: Step, ob: Observer)
    requires step.PersistAcceptedStep?
    requires Enabled(s, step) && ob == s.observers[step.id]
    ensures MovesOne(s, step, step.id, ob, NextFor(s, step, ob))
  {
    hide MovesOne, Moved, Put, Update, AcceptChange;
    var u := Update(s, step.id, ob.cache, Some(AcceptChange(s.durable, ob.execution.value.runId)), step.outcome);
    StageCacheMoves(step, ob, ob.execution.value.(stage := Accepted), u.cache);
    PutMovesOne(s, s.(durable := u.durable), step, ob,
                ob.(execution := Some(ob.execution.value.(stage := Accepted))).(cache := u.cache));
  }

  lemma CallStepMoves(s: State, step: Step, ob: Observer)
    requires step.CallStep?
    requires Enabled(s, step) && ob == s.observers[step.id]
    ensures MovesOne(s, step, step.id, ob, NextFor(s, step, ob))
  {
    hide MovesOne, Moved;
    var e := ob.execution.value;
    var ob' := ob.(execution := Some(e.(stage := Called)));
    StageMoves(step, ob, e.(stage := Called));
    if e.adopted {
      PutMovesOne(s, s, step, ob, ob');
    } else {
      var s1 := SetNative(s, e.runId, Live).(calls := s.calls + [Call(e.runId, e.request, e.payload)]);
      PutMovesOne(s, s1, step, ob, ob');
      assert NextFor(s, step, ob) == Put(s1, step.id, ob');
    }
  }

  lemma FinishMoves(step: Step, ob: Observer, ending: Ending)
    requires step.FinishStep? && ob.execution.Some?
    ensures Moved(step, ob, Finish(ob, ending)) && Finish(ob, ending).cache == ob.cache
  {
  }

  lemma FinishStepMoves(s: State, step: Step, ob: Observer)
    requires step.FinishStep?
    requires Enabled(s, step) && ob == s.observers[step.id]
    ensures MovesOne(s, step, step.id, ob, NextFor(s, step, ob))
  {
    hide MovesOne, Moved, Put, Finish;
    FinishMoves(step, ob, step.ending);
    var ob' := Finish(ob, step.ending);
    assert NextFor(s, step, ob) == Put(s, step.id, ob');
    PutMovesOne(s, s, step, ob, ob');
  }

  lemma DecideMoves(step: Step, ob: Observer, runId: RunId)
    requires step.DecideStep? && runId in ob.finished
    ensures Moved(step, ob, Decide(ob, runId)) && Decide(ob, runId).cache == ob.cache
  {
    hide DecisionFor;
  }

  lemma DecideStepMoves(s: State, step: Step, ob: Observer)
    requires step.DecideStep?
    requires Enabled(s, step) && ob == s.observers[step.id]
    ensures MovesOne(s, step, step.id, ob, NextFor(s, step, ob))
  {
    hide MovesOne, Moved, Put, Decide;
    DecideMoves(step, ob, step.runId);
    var ob' := Decide(ob, step.runId);
    assert NextFor(s, step, ob) == Put(s, step.id, ob');
    PutMovesOne(s, s, step, ob, ob');
  }

  lemma SettleMoves(step: Step, ob: Observer, runId: RunId, ok: bool, again: bool, cache: Ledger)
    requires step.PersistOutcomeStep?
    ensures Moved(step, ob, Settle(ob, runId, ok, again).(cache := cache))
  {
  }

  lemma OutcomeStepMoves(s: State, step: Step, ob: Observer)
    requires step.PersistOutcomeStep?
    requires Enabled(s, step) && ob == s.observers[step.id]
    ensures MovesOne(s, step, step.id, ob, NextFor(s, step, ob))
  {
    hide MovesOne, Moved, Put, Update, OutcomeChange, Settle;
    var u := Update(s, step.id, ob.cache, Some(OutcomeChange(s, ob, step.runId)), step.outcome);
    SettleMoves(step, ob, step.runId, u.ok, step.again, u.cache);
    PutMovesOne(s, s.(durable := u.durable), step, ob, Settle(ob, step.runId, u.ok, step.again).(cache := u.cache));
  }

  lemma WritesMoveOnly(step: Step, ob: Observer, writes: set<RunId>)
    ensures Moved(step, ob, ob.(writes := writes))
  {
  }

  lemma RetryStepMoves(s: State, step: Step, ob: Observer)
    requires step.RetryStep?
    requires Enabled(s, step) && ob == s.observers[step.id]
    ensures MovesOne(s, step, step.id, ob, NextFor(s, step, ob))
  {
    hide MovesOne, Moved, Put;
    WritesMoveOnly(step, ob, ob.writes + {step.runId});
    var ob' := ob.(writes := ob.writes + {step.runId});
    assert NextFor(s, step, ob) == Put(s, step.id, ob');
    PutMovesOne(s, s, step, ob, ob');
  }

  lemma UpdateStepMoves(s: State, step: Step, ob: Observer)
    requires step.OtherUpdateStep?
    requires Enabled(s, step) && ob == s.observers[step.id]
    ensures MovesOne(s, step, step.id, ob, NextFor(s, step, ob))
  {
    hide MovesOne, Moved, Put, Update;
    var u := Update(s, step.id, ob.cache, Some(s.durable), step.outcome);
    CacheMovesOnly(step, ob, u.cache);
    PutMovesOne(s, s, step, ob, ob.(cache := u.cache));
  }

  lemma LoseLeaseStepMoves(s: State, step: Step, ob: Observer)
    requires step.LoseLeaseStep?
    requires Enabled(s, step) && ob == s.observers[step.id]
    ensures MovesOne(s, step, step.id, ob, NextFor(s, step, ob))
  {
    hide Moved;
    CacheMovesOnly(step, ob, ob.cache);
    assert ob.(cache := ob.cache) == ob;
  }

  lemma CrashStepMoves(s: State, step: Step, ob: Observer)
    requires step.CrashStep?
    requires Enabled(s, step) && ob == s.observers[step.id]
    ensures MovesOne(s, step, step.id, ob, NextFor(s, step, ob))
  {
    hide MovesOne;
    DropMovesOne(s, s, step, ob);
  }

  lemma RestoredMoves(step: Step, ob: Observer, found: bool)
    requires ob.resuming == Restoring
    ensures Moved(step, ob, Restored(ob, found)) && Restored(ob, found).cache == ob.cache
  {
    hide HighWater, Moved;
    ResumingMovesOnly(step, ob, Attached);
    FailingMovesOnly(step, ob);
    if ob.cache.active.Some? {
      ResumingMovesOnly(step, ob, Reserving(ob.cache.active.value, HighWater(ob.cache, ob.cache.active.value)));
    }
  }

  lemma ResumingMovesOnly(step: Step, ob: Observer, resuming: Resuming)
    requires ob.resuming == Restoring
    ensures Moved(step, ob, ob.(resuming := resuming))
  {
  }

  lemma FailingMovesOnly(step: Step, ob: Observer)
    requires ob.resuming == Restoring
    ensures Moved(step, ob, ob.(resuming := Attached, local := Failed))
  {
  }

  lemma RestoredStepMoves(s: State, step: Step, ob: Observer)
    requires step.RestoredStep?
    requires Enabled(s, step) && ob == s.observers[step.id]
    ensures MovesOne(s, step, step.id, ob, NextFor(s, step, ob))
  {
    hide MovesOne, Moved, Put, Restored;
    RestoredMoves(step, ob, step.found);
    var ob' := Restored(ob, step.found);
    assert NextFor(s, step, ob) == Put(s, step.id, ob');
    PutMovesOne(s, s, step, ob, ob');
  }

  lemma AdoptingNextMoves(step: Step, ob: Observer, runId: RunId, previous: nat, cache: Ledger)
    requires ob.resuming.Reserving?
    ensures Moved(step, ob, ob.(cache := cache, resuming := Adopting(runId, previous)))
  {
  }

  lemma WindowStepMoves(s: State, step: Step, ob: Observer)
    requires step.PersistWindowStep?
    requires Enabled(s, step) && ob == s.observers[step.id]
    ensures MovesOne(s, step, step.id, ob, NextFor(s, step, ob))
  {
    hide MovesOne, Moved, Put, Drop, Update, WindowChange;
    var r := ob.resuming;
    var u := Update(s, step.id, ob.cache, WindowChange(s.durable, r.runId, r.previous), step.outcome);
    if u.ok {
      var s1 := s.(durable := u.durable, reserved := s.reserved[Window(r.runId, r.previous) := step.id]);
      var ob' := ob.(cache := u.cache, resuming := Adopting(r.runId, r.previous));
      AdoptingNextMoves(step, ob, r.runId, r.previous, u.cache);
      PutMovesOne(s, s1, step, ob, ob');
      ReservationCommutes(s, s1, step.id, ob');
    } else {
      DropMovesOne(s, s.(durable := u.durable), step, ob);
    }
  }

  lemma ReservationCommutes(s: State, s1: State, id: ObserverId, ob': Observer)
    requires s1 == s.(durable := s1.durable, reserved := s1.reserved)
    ensures Put(s1, id, ob') == Put(s, id, ob').(durable := s1.durable, reserved := s1.reserved)
  {
  }

  lemma AdoptedMoves(s: State, step: Step, ob: Observer)
    requires step.AdoptStep? && ob.resuming.Adopting? && ob.resuming.runId in s.history
    ensures Moved(step, ob, AdoptedObserver(s, ob)) && AdoptedObserver(s, ob).cache == ob.cache
  {
  }

  lemma AdoptStepMoves(s: State, step: Step, ob: Observer)
    requires step.AdoptStep?
    requires Enabled(s, step) && ob == s.observers[step.id]
    ensures MovesOne(s, step, step.id, ob, NextFor(s, step, ob))
  {
    hide MovesOne, Moved, Put, Drop, AdoptedObserver;
    if step.refused {
      DropMovesOne(s, s, step, ob);
    } else {
      var s1 := s.(streams := s.streams + [Window(ob.resuming.runId, ob.resuming.previous)]);
      AdoptedMoves(s, step, ob);
      PutMovesOne(s, s1, step, ob, AdoptedObserver(s, ob));
      OpeningCommutes(s, s1, step.id, AdoptedObserver(s, ob));
    }
  }

  lemma OpeningCommutes(s: State, s1: State, id: ObserverId, ob': Observer)
    requires s1 == s.(streams := s1.streams)
    ensures Put(s1, id, ob') == Put(s, id, ob').(streams := s1.streams)
  {
  }

  lemma FlaggedMoves(step: Step, ob: Observer)
    requires IsFlagStep(step)
    ensures Moved(step, ob, Flagged(step, ob)) && Flagged(step, ob).cache == ob.cache
  {
    hide Moved, Flagged;
    OnlyFlagsChange(step, ob);
    FlagsOnlyMove(step, ob, Flagged(step, ob));
  }

  predicate FlagsDiffer(ob: Observer, ob': Observer) {
    && ob' == ob.(detaching := ob'.detaching, detached := ob'.detached, closed := ob'.closed, transfer := ob'.transfer, local := ob'.local)
    && (ob.detached ==> ob'.detached) && (ob.closed ==> ob'.closed)
    && (ob'.local == ob.local || ob'.local == Destroyed)
  }

  lemma OnlyFlagsChange(step: Step, ob: Observer)
    requires IsFlagStep(step)
    ensures FlagsDiffer(ob, Flagged(step, ob)) && Flagged(step, ob).cache == ob.cache
  {
    hide Flagged, FlagsDiffer;
    if step.BeginTransferStep? || step.EndTransferStep? {
      TransferFlagChanges(step, ob);
    } else if step.BeginDetachStep? || step.CommitDetachStep? {
      DetachFlagsChange(step, ob);
    } else {
      ClosingFlagsChange(step, ob);
    }
  }

  lemma TransferFlagChanges(step: Step, ob: Observer)
    requires step.BeginTransferStep? || step.EndTransferStep?
    ensures FlagsDiffer(ob, Flagged(step, ob)) && Flagged(step, ob).cache == ob.cache
  {
    hide TransferAllowed;
  }

  lemma DetachFlagsChange(step: Step, ob: Observer)
    requires step.BeginDetachStep? || step.CommitDetachStep?
    ensures FlagsDiffer(ob, Flagged(step, ob)) && Flagged(step, ob).cache == ob.cache
  {
    hide DetachAllowed;
  }

  lemma ClosingFlagsChange(step: Step, ob: Observer)
    requires step.CloseStep? || step.DestroyLocalStep?
    ensures FlagsDiffer(ob, Flagged(step, ob)) && Flagged(step, ob).cache == ob.cache
  {
  }

  lemma FlagsOnlyMove(step: Step, ob: Observer, ob': Observer)
    requires IsFlagStep(step) && FlagsDiffer(ob, ob')
    ensures Moved(step, ob, ob')
  {
  }

  lemma FlagStepMoves(s: State, step: Step, ob: Observer)
    requires IsFlagStep(step)
    requires Enabled(s, step) && ob == s.observers[step.id]
    ensures MovesOne(s, step, step.id, ob, NextFor(s, step, ob))
  {
    hide MovesOne, Moved, Put, Flagged;
    FlagStepIs(s, step);
    FlaggedMoves(step, ob);
    PutMovesOne(s, s, step, ob, Flagged(step, ob));
  }

  // ---- Handles -----------------------------------------------------------------------

  // Runs handed out were started, and only their results are decided on.
  ghost predicate HandlesOk(s: State, ob: Observer) {
    && (forall r :: r in ob.tracked ==> r in s.history && StartedLocally(s.history[r].native))
    && (forall r :: r in ob.decisions ==> r in ob.tracked)
  }

  ghost predicate AllHandlesOk(s: State) {
    forall id :: id in s.observers ==> HandlesOk(s, s.observers[id])
  }

  predicate HandlesGrow(s: State, ob: Observer, ob': Observer) {
    && ob.tracked <= ob'.tracked
    && (forall r :: r in ob'.tracked ==> r in ob.tracked || (r in s.history && StartedLocally(s.history[r].native)))
    && (forall r :: r in ob'.decisions ==> r in ob.decisions || r in ob.tracked)
  }

  // A step leaves observers where they are, moves one, removes one, or adds a new one.
  ghost predicate ObserversMove(s: State, s': State) {
    && s.nextObserver <= s'.nextObserver
    && (forall id :: id in s'.observers && id !in s.observers ==>
          id >= s.nextObserver && s'.observers[id].tracked == {} && s'.observers[id].decisions == map[])
    && (forall id :: id in s'.observers && id in s.observers ==> HandlesGrow(s, s.observers[id], s'.observers[id]))
  }

  lemma StepMovesObservers(s: State, step: Step)
    requires Inv(s) && Enabled(s, step)
    ensures ObserversMove(s, Next(s, step))
  {
    hide Inv, EnabledFor, NextFor, ObserversMove, MovesOne;
    if step.ResumeStep? {
      ResumeMovesObservers(s);
    } else if step.NativeEndsStep? {
      SameObservers(s, Next(s, step));
    } else {
      var ob := s.observers[step.id];
      EveryStepMovesOne(s, step, ob);
      OwnHandles(s, step, ob);
      OneMoves(s, step, Next(s, step), step.id);
    }
  }

  lemma SameObservers(s: State, s': State)
    requires s'.observers == s.observers && s'.nextObserver == s.nextObserver
    ensures ObserversMove(s, s')
  {
  }

  lemma ResumeMovesObservers(s: State)
    requires Inv(s)
    ensures ObserversMove(s, DoResume(s))
  {
    hide LedgerOk, RequestsOk, CallsOk, WindowsOk, ObserverOk;
  }

  lemma OneMoves(s: State, step: Step, s': State, id: ObserverId)
    requires id in s.observers && MovesOne(s, step, id, s.observers[id], s')
    requires id in s'.observers ==> HandlesGrow(s, s.observers[id], s'.observers[id])
    ensures ObserversMove(s, s')
  {
    hide Moved;
    forall other | other in s'.observers && other != id
      ensures other in s.observers && s'.observers[other] == s.observers[other]
    {
      OthersStay(s, step, s', id, other);
    }
  }

  lemma OthersStay(s: State, step: Step, s': State, id: ObserverId, other: ObserverId)
    requires id in s.observers && MovesOne(s, step, id, s.observers[id], s') && other != id && other in s'.observers
    ensures other in s.observers && s'.observers[other] == s.observers[other]
  {
    hide Moved;
    assert other in s'.observers - {id};
    assert (s'.observers - {id})[other] == (s.observers - {id})[other];
  }

  lemma OwnHandles(s: State, step: Step, ob: Observer)
    requires Inv(s) && Enabled(s, step) && !step.ResumeStep? && !step.NativeEndsStep? && ob == s.observers[step.id]
    requires MovesOne(s, step, step.id, ob, NextFor(s, step, ob))
    ensures step.id in NextFor(s, step, ob).observers ==> HandlesGrow(s, ob, NextFor(s, step, ob).observers[step.id])
  {
    hide Inv, NextFor, HandlesGrow, GlobalOk, ObserverOk;
    if step.AdmissionReturnsStep? || step.AdoptStep? || step.DecideStep? {
      InvAt(s, step.id);
      HandlesAdded(s, step, ob);
    } else {
      SameHandlesGrow(s, ob);
    }
  }

  lemma SameHandlesGrow(s: State, ob: Observer)
    ensures forall ob': Observer :: SameHandles(ob, ob') ==> HandlesGrow(s, ob, ob')
  {
  }

  lemma HandlesAdded(s: State, step: Step, ob: Observer)
    requires step.AdmissionReturnsStep? || step.AdoptStep? || step.DecideStep?
    requires ObserverOk(s, step.id, ob) && EnabledFor(s, step, ob)
    ensures step.id in NextFor(s, step, ob).observers ==> HandlesGrow(s, ob, NextFor(s, step, ob).observers[step.id])
  {
    hide ExecutionOk, FinishedOk, TransferOk, HolderOk;
    assert AdmissionOk(s, step.id, ob) && ResumingOk(s, step.id, ob);
  }

  lemma StepKeepsHandles(s: State, step: Step)
    requires Inv(s) && AllHandlesOk(s) && Enabled(s, step)
    ensures AllHandlesOk(Next(s, step))
  {
    hide Inv, Next, Enabled;
    StepMovesHistory(s, step);
    StepMovesObservers(s, step);
  }

  lemma {:induction false} EveryStateKeepsHandles(states: seq<State>, steps: seq<Step>, i: nat)
    requires Behavior(states, steps) && i < |states|
    ensures AllHandlesOk(states[i])
  {
    hide Inv, Enabled, Next;
    if i > 0 {
      EveryStateKeepsHandles(states, steps, i - 1);
      EveryStateKeepsInv(states, steps, i - 1);
      hide AllHandlesOk;
      StepKeepsHandles(states[i - 1], steps[i - 1]);
    }
  }

  // What `getRun` answers, exactly, as long as the cached record is current: a retained result
  // is saved again; another run handed out by this observer answers with its old handle,
  // whatever the record says; for all other runs the record decides, and recovery is asked
  // for with open runs and with rejected ones.
  lemma GetRunIsTruthful(states: seq<State>, steps: seq<Step>, i: nat, id: ObserverId, r: RunId)
    requires Behavior(states, steps) && i < |states| && states[i].lease == Some(id) && id in states[i].observers
    requires states[i].observers[id].cache == states[i].durable
    ensures AnswersExactly(states[i], states[i].observers[id], r)
  {
    hide Behavior, Inv, AnswersExactly;
    EveryStateKeepsInv(states, steps, i);
    EveryStateKeepsHandles(states, steps, i);
    LookUpIsTruthful(states[i], id, states[i].observers[id], r);
  }

  ghost predicate AnswersExactly(s: State, ob: Observer, r: RunId) {
    var l, answer := s.durable, LookUp(ob, r);
    && (answer.Repair? <==> r in ob.pendingResults)
    && (answer.Repair? ==> r in ob.tracked && Kept(s, r, answer.result))
    && (answer == Handle <==> r in ob.tracked && r !in ob.pendingResults)
    && (answer.Saved? <==> r in l.runs && l.runs[r].state == Terminal && r !in ob.tracked)
    && (answer.Saved? ==> l.runs[r] == RunRecord(Terminal, None, None, Some(answer.result)))
    && (answer == NeedsRecovery <==> r in l.runs && (l.runs[r].state == Rejected || (IsOpen(l.runs[r]) && r !in ob.tracked)))
    && (answer == Unavailable <==> r !in l.runs)
  }

  lemma LookUpIsTruthful(s: State, id: ObserverId, ob: Observer, r: RunId)
    requires Inv(s) && AllHandlesOk(s) && id in s.observers && s.observers[id] == ob && s.lease == Some(id) && ob.cache == s.durable
    ensures AnswersExactly(s, ob, r)
  {
    hide Inv, GlobalOk, ObserverOk, AnswersExactly, HandlesOk;
    InvAt(s, id);
    RetainedFacts(s, id, ob, r);
    RecordFacts(s, ob, r);
    hide LookUp, LedgerOk, FinishedOk, Kept;
    AnswersFollow(s, ob, r);
  }

  lemma RetainedFacts(s: State, id: ObserverId, ob: Observer, r: RunId)
    requires ObserverOk(s, id, ob) && HandlesOk(s, ob) && s.lease == Some(id)
    ensures r in ob.pendingResults ==> r in ob.finished && r in ob.tracked && Kept(s, r, ob.finished[r].result)
  {
    hide AdmissionOk, ExecutionOk, ResumingOk, TransferOk, Kept;
  }

  lemma RecordFacts(s: State, ob: Observer, r: RunId)
    requires GlobalOk(s) && HandlesOk(s, ob)
    ensures r in ob.tracked ==> r in s.durable.runs && s.durable.runs[r].state != Rejected
    ensures r in s.durable.runs && s.durable.runs[r].state == Terminal ==>
              s.durable.runs[r] == RunRecord(Terminal, None, None, s.durable.runs[r].result) && s.durable.runs[r].result.Some?
  {
    hide RequestsOk, CallsOk, WindowsOk, IdsOk;
  }

  lemma AnswersFollow(s: State, ob: Observer, r: RunId)
    requires ob.cache == s.durable
    requires r in ob.pendingResults ==> r in ob.finished && r in ob.tracked && Kept(s, r, ob.finished[r].result)
    requires r in ob.tracked ==> r in s.durable.runs && s.durable.runs[r].state != Rejected
    requires r in s.durable.runs && s.durable.runs[r].state == Terminal ==>
               s.durable.runs[r] == RunRecord(Terminal, None, None, s.durable.runs[r].result) && s.durable.runs[r].result.Some?
    ensures AnswersExactly(s, ob, r)
  {
    hide Kept;
  }

  // ---- Leaving and failing -----------------------------------------------------------

  // A detached or closed observer stays so, and starts nothing: the only execution it can have
  // is one it already had.
  predicate StaysAway(ob: Observer, ob': Observer) {
    && (ob.detached ==> ob'.detached) && (ob.closed ==> ob'.closed)
    && (ob'.execution.Some? ==> ob.execution.Some? && ob'.execution.value.runId == ob.execution.value.runId)
  }

  // After a run that ended unconfirmed the local session is failed or destroyed.
  predicate Dormant(ob: Observer) {
    ob.local in {Failed, Destroyed} && ob.execution == None && ob.resuming == Attached
  }

  // An observer that is around before and after a step has moved, or nothing happened to it.
  lemma ObserverMoves(s: State, step: Step, id: ObserverId)
    requires Inv(s) && Enabled(s, step) && id in s.observers && id in Next(s, step).observers
    ensures || Next(s, step).observers[id] == s.observers[id]
            || (Moved(step, s.observers[id], Next(s, step).observers[id]) && !step.ResumeStep? && !step.NativeEndsStep?
                && step.id == id && EnabledFor(s, step, s.observers[id]))
  {
    hide Inv, EnabledFor, NextFor, Moved, MovesOne;
    if step.ResumeStep? {
      ResumedIsNew(s, id);
    } else if !step.NativeEndsStep? {
      EveryStepMovesOne(s, step, s.observers[step.id]);
      if step.id == id {
        OwnMove(s, step, Next(s, step));
      } else {
        OthersStay(s, step, Next(s, step), step.id, id);
      }
    }
  }

  lemma ResumedIsNew(s: State, id: ObserverId)
    requires Inv(s) && id in s.observers
    ensures id in DoResume(s).observers && DoResume(s).observers[id] == s.observers[id]
  {
    hide GlobalOk, ObserverOk;
    InvAt(s, id);
  }

  lemma OwnMove(s: State, step: Step, s': State)
    requires !step.ResumeStep? && !step.NativeEndsStep?
    requires step.id in s.observers && step.id in s'.observers && MovesOne(s, step, step.id, s.observers[step.id], s')
    ensures Moved(step, s.observers[step.id], s'.observers[step.id])
  {
    hide Moved;
  }

  lemma LeaversAreAttached(s: State, id: ObserverId, ob: Observer)
    requires ObserverOk(s, id, ob) && (Left(ob) || ob.execution.Some?)
    ensures ob.resuming == Attached
  {
  }

  lemma LeaversStartNothing(s: State, step: Step, id: ObserverId)
    requires Inv(s) && Enabled(s, step) && id in s.observers && Left(s.observers[id]) && id in Next(s, step).observers
    ensures StaysAway(s.observers[id], Next(s, step).observers[id]) && Left(Next(s, step).observers[id])
  {
    hide Inv, Next, GlobalOk, ObserverOk;
    ObserverMoves(s, step, id);
    InvAt(s, id);
    LeaversAreAttached(s, id, s.observers[id]);
  }

  lemma UnconfirmedLeavesDormant(s: State, step: Step)
    requires Inv(s) && Enabled(s, step) && step.FinishStep? && !step.ending.confirmed
    ensures step.id in Next(s, step).observers && Dormant(Next(s, step).observers[step.id])
  {
    hide Inv, GlobalOk, ObserverOk;
    InvAt(s, step.id);
    LeaversAreAttached(s, step.id, s.observers[step.id]);
  }

  lemma DormantStays(s: State, step: Step, id: ObserverId)
    requires Inv(s) && Enabled(s, step) && id in s.observers && Dormant(s.observers[id]) && id in Next(s, step).observers
    ensures Dormant(Next(s, step).observers[id])
  {
    hide Inv, Next;
    ObserverMoves(s, step, id);
  }

  // An observer present before and after was present all along.
  lemma ObserversDoNotReturn(states: seq<State>, steps: seq<Step>, i: nat, j: nat, id: ObserverId)
    requires Behavior(states, steps) && i < j < |states| && id in states[i].observers && id in states[j].observers
    ensures id in states[j - 1].observers
  {
    hide Inv, Enabled, Next, HandlesGrow, GlobalOk, ObserverOk;
    EveryStateKeepsInv(states, steps, i);
    InvAt(states[i], id);
    IdsGrow(states, steps, i, j - 1);
    EveryStateKeepsInv(states, steps, j - 1);
    StepMovesObservers(states[j - 1], steps[j - 1]);
  }

  lemma {:induction false} IdsGrow(states: seq<State>, steps: seq<Step>, i: nat, j: nat)
    requires Behavior(states, steps) && i <= j < |states|
    ensures states[i].nextObserver <= states[j].nextObserver
    decreases j
  {
    hide Inv, Enabled, Next;
    if i < j {
      IdsGrow(states, steps, i, j - 1);
      EveryStateKeepsInv(states, steps, j - 1);
      StepMovesObservers(states[j - 1], steps[j - 1]);
    }
  }

  // A detached or closed observer is so for good, and executes nothing it was not executing.
  lemma {:induction false} LeavingIsFinal(states: seq<State>, steps: seq<Step>, i: nat, j: nat, id: ObserverId)
    requires Behavior(states, steps) && i <= j < |states| && id in states[i].observers && id in states[j].observers
    requires Left(states[i].observers[id])
    // and refuses any further input
    ensures Left(states[j].observers[id]) && StaysAway(states[i].observers[id], states[j].observers[id])
    ensures forall request, payload :: RunReplyTo(states[j].observers[id], request, payload) == Refuse
    decreases j
  {
    hide Inv, Enabled, Next;
    if i < j {
      ObserversDoNotReturn(states, steps, i, j, id);
      LeavingIsFinal(states, steps, i, j - 1, id);
      EveryStateKeepsInv(states, steps, j - 1);
      LeaversStartNothing(states[j - 1], steps[j - 1], id);
    }
  }

  // After an unconfirmed end the observer never executes a run again.
  lemma {:induction false} FailureIsFinal(states: seq<State>, steps: seq<Step>, i: nat, j: nat, id: ObserverId)
    requires Behavior(states, steps) && i < j < |states| && id in states[j].observers
    requires steps[i].FinishStep? && steps[i].id == id && !steps[i].ending.confirmed
    ensures Dormant(states[j].observers[id])
    decreases j
  {
    hide Inv, Next, Dormant, EnabledFor;
    EveryStateKeepsInv(states, steps, j - 1);
    if i + 1 < j {
      ObserversDoNotReturn(states, steps, i, j, id);
      FailureIsFinal(states, steps, i, j - 1, id);
      DormantStays(states[j - 1], steps[j - 1], id);
    } else {
      UnconfirmedLeavesDormant(states[i], steps[i]);
    }
  }

  // ---- Results -----------------------------------------------------------------------

  // A result to be kept is let go only once it is recorded.
  ghost predicate SavedOk(l: Ledger, ob: Observer) {
    forall r :: r in ob.decisions && ob.decisions[r] == Keep && r !in ob.pendingResults ==>
                  r in ob.finished && Records(l, r, ob.finished[r].result)
  }

  predicate Records(l: Ledger, r: RunId, result: RunResult) {
    r in l.runs && l.runs[r] == RunRecord(Terminal, None, None, Some(result))
  }

  ghost predicate AllSavedOk(s: State) {
    forall id :: id in s.observers ==> SavedOk(s.durable, s.observers[id])
  }

  lemma StepKeepsSaved(s: State, step: Step)
    requires Inv(s) && AllSavedOk(s) && Enabled(s, step)
    ensures AllSavedOk(Next(s, step))
  {
    hide Inv, Enabled, Next, SavedOk, Preserves, Moved;
    StepPreserves(s, step);
    var s' := Next(s, step);
    forall id | id in s'.observers ensures SavedOk(s'.durable, s'.observers[id]) {
      if id in s.observers {
        ObserverMoves(s, step, id);
        if s'.observers[id] == s.observers[id] {
          SavedStays(s.durable, s'.durable, s.observers[id], s'.observers[id]);
        } else {
          OwnSaved(s, step, s.observers[id]);
        }
      } else {
        NewObserversSaveNothing(s, step, id);
      }
    }
  }

  lemma SavedStays(l: Ledger, l': Ledger, ob: Observer, ob': Observer)
    requires SavedOk(l, ob) && Preserves(l, l') && SameResults(ob, ob')
    ensures SavedOk(l', ob')
  {
  }

  lemma NewObserversSaveNothing(s: State, step: Step, id: ObserverId)
    requires Inv(s) && Enabled(s, step) && id in Next(s, step).observers && id !in s.observers
    ensures SavedOk(Next(s, step).durable, Next(s, step).observers[id])
  {
    hide Inv, Enabled, Next, HandlesGrow;
    StepMovesObservers(s, step);
  }

  lemma OwnSaved(s: State, step: Step, ob: Observer)
    requires !step.ResumeStep? && !step.NativeEndsStep?
    requires Inv(s) && Enabled(s, step) && step.id in s.observers && s.observers[step.id] == ob
    requires step.id in Next(s, step).observers && Moved(step, ob, Next(s, step).observers[step.id])
    requires SavedOk(s.durable, ob) && Preserves(s.durable, Next(s, step).durable)
    ensures SavedOk(Next(s, step).durable, Next(s, step).observers[step.id])
  {
    hide Inv, Enabled, Next, SavedOk, Preserves, GlobalOk, ObserverOk;
    if step.FinishStep? || step.DecideStep? || step.PersistOutcomeStep? {
      InvAt(s, step.id);
      ResultStepIs(s, step, ob);
      if step.FinishStep? {
        FinishingIsNew(s, step.id, ob);
        FinishSaves(s.durable, ob, step.ending);
      } else if step.DecideStep? {
        DecisionSaves(s.durable, ob, step.runId);
      } else {
        SettlingSaves(s, step, ob);
      }
    } else {
      SavedStays(s.durable, Next(s, step).durable, ob, Next(s, step).observers[step.id]);
    }
  }

  // The three steps that touch results, spelt out.
  lemma ResultStepIs(s: State, step: Step, ob: Observer)
    requires step.FinishStep? || step.DecideStep? || step.PersistOutcomeStep?
    requires Enabled(s, step) && ob == s.observers[step.id]
    ensures EnabledFor(s, step, ob)
    ensures step.FinishStep? ==> ob.execution.Some? && Next(s, step) == Put(s, step.id, Finish(ob, step.ending))
    ensures step.DecideStep? ==> step.runId in ob.finished && step.runId !in ob.decisions && Next(s, step) == Put(s, step.id, Decide(ob, step.runId))
    ensures step.PersistOutcomeStep? ==>
              step.runId in ob.decisions && step.runId in ob.finished
              && Next(s, step) == DoPersistOutcome(s, step.id, ob, step.runId, step.outcome, step.again)
  {
    hide Finish, Decide, DoPersistOutcome;
  }

  lemma FinishingIsNew(s: State, id: ObserverId, ob: Observer)
    requires ObserverOk(s, id, ob) && ob.execution.Some?
    ensures ob.execution.value.runId !in ob.decisions
  {
    hide AdmissionOk, ResumingOk, TransferOk, HolderOk;
  }

  lemma FinishSaves(l: Ledger, ob: Observer, ending: Ending)
    requires SavedOk(l, ob) && ob.execution.Some? && ob.execution.value.runId !in ob.decisions
    ensures SavedOk(l, Finish(ob, ending))
  {
    hide Records;
  }

  lemma DecisionSaves(l: Ledger, ob: Observer, runId: RunId)
    requires SavedOk(l, ob) && runId in ob.finished
    ensures SavedOk(l, Decide(ob, runId))
  {
    hide Records, DecisionFor;
  }

  lemma SettlingSaves(s: State, step: Step, ob: Observer)
    requires step.PersistOutcomeStep? && step.runId in ob.decisions && step.runId in ob.finished && SavedOk(s.durable, ob)
    requires Preserves(s.durable, DoPersistOutcome(s, step.id, ob, step.runId, step.outcome, step.again).durable)
    ensures var s' := DoPersistOutcome(s, step.id, ob, step.runId, step.outcome, step.again);
            step.id in s'.observers && SavedOk(s'.durable, s'.observers[step.id])
  {
    hide Update, OutcomeChange, Preserves, SavedOk;
    var u := Update(s, step.id, ob.cache, Some(OutcomeChange(s, ob, step.runId)), step.outcome);
    SavedStays(s.durable, u.durable, ob, ob);
    if u.ok && ob.decisions[step.runId] == Keep {
      KeepingRecords(s, ob, step.runId);
    }
    SettleSaves(u.durable, ob, step.runId, u.ok, step.again, u.cache);
  }

  lemma KeepingRecords(s: State, ob: Observer, runId: RunId)
    requires runId in ob.decisions && runId in ob.finished && ob.decisions[runId] == Keep
    ensures Records(OutcomeChange(s, ob, runId), runId, ob.finished[runId].result)
  {
  }

  lemma SettleSaves(l: Ledger, ob: Observer, runId: RunId, ok: bool, again: bool, cache: Ledger)
    requires SavedOk(l, ob) && runId in ob.decisions && runId in ob.finished
    requires ok && ob.decisions[runId] == Keep ==> Records(l, runId, ob.finished[runId].result)
    ensures SavedOk(l, Settle(ob, runId, ok, again).(cache := cache))
  {
    hide Records;
  }

  lemma {:induction false} EveryStateKeepsSaved(states: seq<State>, steps: seq<Step>, i: nat)
    requires Behavior(states, steps) && i < |states|
    ensures AllSavedOk(states[i])
  {
    hide Inv, Enabled, Next;
    if i > 0 {
      EveryStateKeepsSaved(states, steps, i - 1);
      EveryStateKeepsInv(states, steps, i - 1);
      hide AllSavedOk;
      StepKeepsSaved(states[i - 1], steps[i - 1]);
    }
  }

  // A result that was to be kept is never lost: at any time its observer still retains it, or
  // it is recorded, exactly, and for good. While retained at the lease holder it can still be
  // saved: the run is open, or the record is already the result's.
  lemma RetainedResultsSurvive(states: seq<State>, steps: seq<Step>, i: nat, id: ObserverId, r: RunId)
    requires Behavior(states, steps) && i < |states| && id in states[i].observers
    requires r in states[i].observers[id].decisions && states[i].observers[id].decisions[r] == Keep
    ensures r in states[i].observers[id].finished && states[i].observers[id].finished[r].confirmed
    ensures r in states[i].observers[id].pendingResults || Records(states[i].durable, r, states[i].observers[id].finished[r].result)
    ensures states[i].lease == Some(id) ==> Kept(states[i], r, states[i].observers[id].finished[r].result)
  {
    hide Behavior, Inv, GlobalOk, Kept, Records;
    EveryStateKeepsInv(states, steps, i);
    EveryStateKeepsSaved(states, steps, i);
    InvAt(states[i], id);
  }

  // ---- Sequence numbers --------------------------------------------------------------

  // The hub of one incarnation: numbered from its window's start, and closed at its end.
  ghost predicate HubOn(w: Window, hub: J.Retention) {
    J.Consistent(hub) && hub.initial == w.start && hub.maxSequence == w.start + WINDOW
  }

  // Two openings of a run's stream never publish under one number, whoever opened them and on
  // whatever windows; only a compaction diagnostic can be numbered beyond its window.
  lemma NumbersAreNeverReused(states: seq<State>, steps: seq<Step>, i: nat, j: nat, k: nat,
                              hubA: J.Retention, hubB: J.Retention, e: J.Event, f: J.Event)
    requires Behavior(states, steps) && i < |states| && j < |states[i].streams| && k < |states[i].streams| && j != k
    requires states[i].streams[j].runId == states[i].streams[k].runId
    requires HubOn(states[i].streams[j], hubA) && HubOn(states[i].streams[k], hubB)
    requires e in hubA.log && e.data.Payload? && f in hubB.log && f.data.Payload?
    ensures e.sequence != f.sequence
  {
    hide Behavior;
    PublishedInWindow(states[i].streams[j], hubA, e);
    PublishedInWindow(states[i].streams[k], hubB, f);
    hide HubOn;
    StreamsNeverShareNumbers(states, steps, i, if j < k then j else k, if j < k then k else j, e.sequence);
  }

  lemma PublishedInWindow(w: Window, hub: J.Retention, e: J.Event)
    requires HubOn(w, hub) && e in hub.log && e.data.Payload?
    ensures InWindow(e.sequence, w)
  {
  }
}
