/**
  The write-ahead protocol around one durable session, as a transition system. A step is a
  synchronous stretch of code between two awaits, one settled storage update, or something
  the environment does: a storage fault, a lost lease, a crash, a native run ending.

  There may be any number of observers of the session at a time: the one holding the
  storage lease, and older ones that detached, lost the lease, or are still unwinding.
 */
module SessionProtocol {
  import opened Wrappers
  import opened DurableUpdate
  import opened SessionLedger

  type ObserverId = nat

  // ---- State -------------------------------------------------------------------------

  // How far an input went towards the native driver.
  datatype NativeStatus =
    | Reserved   // a run id exists, nothing was started
    | Refused    // starting it failed; it never will be started
    | Armed      // started locally, native `run` not called yet
    | Live       // native `run` was called and may be executing
    | Dead       // native execution is over

  datatype Origin = Origin(request: Option<RequestId>, payload: Payload, owner: ObserverId, native: NativeStatus)

  // One call of the native driver's `run`.
  datatype Call = Call(runId: RunId, request: Option<RequestId>, payload: Payload)

  // Sequence numbers start+1 .. start+WINDOW of one run.
  datatype Window = Window(runId: RunId, start: nat)

  // Progress of the one `admit` call an observer may have.
  datatype Admission =
    | Idle
    | Queued(request: Option<RequestId>, payload: Payload)
    | Inspecting(request: Option<RequestId>, payload: Payload)
    | Persisting(request: Option<RequestId>, payload: Payload, runId: RunId)
    | Persisted(request: Option<RequestId>, payload: Payload, runId: RunId)
    | Rejecting(request: Option<RequestId>, payload: Payload, runId: RunId)
    | Started(runId: RunId)
    | LookingUp(request: Option<RequestId>, payload: Payload, runId: RunId)

  datatype Stage = Beginning | Called | Accepted

  // The local run an observer is executing.
  datatype Execution = Execution(runId: RunId, request: Option<RequestId>, payload: Payload, adopted: bool, stage: Stage)

  datatype Ending = Ending(confirmed: bool, result: RunResult)

  datatype Decision = Keep | Unresolved

  datatype LocalState = Ready | Running | Failed | Destroyed

  datatype Resuming =
    | Restoring
    | Reserving(runId: RunId, previous: nat)
    | Adopting(runId: RunId, previous: nat)
    | Attached

  datatype Observer = Observer(
    cache: Ledger, resuming: Resuming, detaching: bool, detached: bool, closed: bool, transfer: bool,
    local: LocalState, admission: Admission, known: map<RequestId, Payload>, attempted: set<RequestId>,
    execution: Option<Execution>, tracked: set<RunId>, finished: map<RunId, Ending>,
    decisions: map<RunId, Decision>, writes: set<RunId>, pendingResults: set<RunId>)

  // `streams` lists the hubs opened so far, one entry an opening, by the window each numbers its
  // events in.
  datatype State = State(
    durable: Ledger, lease: Option<ObserverId>, observers: map<ObserverId, Observer>, nextObserver: ObserverId,
    history: map<RunId, Origin>, calls: seq<Call>, reserved: map<Window, ObserverId>, streams: seq<Window>)

  function NewObserver(cache: Ledger, resuming: Resuming): Observer {
    Observer(cache, resuming, false, false, false, false, Ready, Idle, map[], {}, None, {}, map[], map[], {}, {})
  }

  // A session that was just opened.
  function Init(): State {
    State(EmptyLedger(), Some(0), map[0 := NewObserver(EmptyLedger(), Attached)], 1, map[], [], map[], [])
  }

  // ---- Helpers -----------------------------------------------------------------------

  function Put(s: State, id: ObserverId, ob: Observer): State {
    s.(observers := s.observers[id := ob])
  }

  function SetNative(s: State, runId: RunId, native: NativeStatus): State
    requires runId in s.history
  {
    s.(history := s.history[runId := s.history[runId].(native := native)])
  }

  // The observer disappears: crashed, or unwound after a failed resume.
  function Drop(s: State, id: ObserverId): State {
    s.(observers := s.observers - {id}, lease := if s.lease == Some(id) then None else s.lease)
  }

  // A `control.update` by `id`. Without the lease nothing is written.
  function Update(s: State, id: ObserverId, cache: Ledger, changed: Option<Ledger>, outcome: Outcome): (u: Applied<Ledger>)
    ensures u.durable == s.durable || (changed == Some(u.durable) && s.lease == Some(id))
    ensures u.ok ==> changed == Some(u.durable) && u.cache == u.durable && s.lease == Some(id)
    ensures !u.ok ==> u.cache == cache || u.cache == s.durable
  {
    Apply(s.durable, cache, changed, if s.lease == Some(id) then outcome else FailedBefore(false))
  }

  // ---- DefinitionSession.run and admit -----------------------------------------------

  // A request id must hold something besides white space.
  predicate Blank(request: RequestId) {
    forall c :: c in request ==> WhiteSpace(c as int)
  }

  // What `trim` removes.
  predicate WhiteSpace(c: int) {
    || 0x09 <= c <= 0x0D || c == 0x20 || c == 0xA0 || c == 0x1680 || 0x2000 <= c <= 0x200A
    || c in {0x2028, 0x2029, 0x202F, 0x205F, 0x3000, 0xFEFF}
  }

  datatype RunReply = Refuse | SamePromise | Admit

  function RunReplyTo(ob: Observer, request: Option<RequestId>, payload: Payload): RunReply {
    if ob.transfer || ob.detached || ob.closed then Refuse
    else if request.Some? && Blank(request.value) then Refuse
    else if request.Some? && request.value in ob.known then
      if ob.known[request.value] != payload then Refuse else SamePromise
    else if |ob.known| >= MAX_REQUESTS || ob.admission != Idle then Refuse
    else Admit
  }

  function Run(ob: Observer, request: Option<RequestId>, payload: Payload): Observer {
    if RunReplyTo(ob, request, payload) != Admit then ob
    else
      ob.(admission := Queued(request, payload),
          known := if request.Some? then ob.known[request.value := payload] else ob.known)
  }

  // Start of `admit`: a request already in the ledger is only looked up, never submitted.
  function BeginAdmit(ob: Observer, aborted: bool): (a: Admission)
    requires ob.admission.Queued?
    ensures a.Idle? || a.LookingUp? || a.Inspecting?
  {
    var a := ob.admission;
    if ob.closed || ob.detached then Idle
    else if a.request.Some? && a.request.value in ob.cache.requests then
      var saved := ob.cache.requests[a.request.value];
      if saved.digest != a.payload || saved.rejected then Idle else LookingUp(a.request, a.payload, saved.runId)
    else if aborted then Idle
    else Inspecting(a.request, a.payload)
  }

  function DoInspected(s: State, id: ObserverId, ob: Observer, stop: bool, runId: RunId): State
    requires ob.admission.Inspecting?
  {
    var a := ob.admission;
    if stop || ob.cache.active.Some? then Put(s, id, ob.(admission := Idle))
    else
      Put(s, id, ob.(admission := Persisting(a.request, a.payload, runId)))
      .(history := s.history[runId := Origin(a.request, a.payload, id, Reserved)])
  }

  // The observer after its intent left for the ledger, whatever came of it.
  function Tried(ob: Observer): Observer
    requires ob.admission.Persisting?
  {
    ob.(admission := Idle,
        attempted := if ob.admission.request.Some? then ob.attempted + {ob.admission.request.value} else ob.attempted)
  }

  // The intent became durable; its first sequence window belongs to the run from now on.
  function Admitted(s: State, id: ObserverId, runId: RunId, request: Option<RequestId>, payload: Payload): State
    requires AdmitChange(s.durable, runId, request, payload).Some?
  {
    s.(durable := AdmitChange(s.durable, runId, request, payload).value,
       reserved := s.reserved[Window(runId, 0) := id])
  }

  function DoPersistIntent(s: State, id: ObserverId, ob: Observer, outcome: Outcome): State
    requires ob.admission.Persisting?
  {
    var a := ob.admission;
    var u := Update(s, id, ob.cache, AdmitChange(s.durable, a.runId, a.request, a.payload), outcome);
    var ob' := Tried(ob).(cache := u.cache, admission := if u.ok then Persisted(a.request, a.payload, a.runId) else Idle);
    if u.durable == s.durable then Put(s, id, ob') else Put(Admitted(s, id, a.runId, a.request, a.payload), id, ob')
  }

  // The synchronous part of starting: everything up to the first await of the execution.
  function DoStart(s: State, id: ObserverId, ob: Observer, refused: bool): State
    requires ob.admission.Persisted? && ob.admission.runId in s.history
  {
    var a := ob.admission;
    if refused || ob.closed || ob.detached || ob.local != Ready || ob.execution.Some? then
      SetNative(Put(s, id, ob.(admission := Rejecting(a.request, a.payload, a.runId))), a.runId, Refused)
    else
      SetNative(Put(s, id, StartedObserver(ob)), a.runId, Armed).(streams := s.streams + [Window(a.runId, 0)])
  }

  function StartedObserver(ob: Observer): Observer
    requires ob.admission.Persisted?
  {
    var a := ob.admission;
    ob.(admission := Started(a.runId), local := Running,
        execution := Some(Execution(a.runId, a.request, a.payload, false, Beginning)))
  }

  function DoPersistRejection(s: State, id: ObserverId, ob: Observer, outcome: Outcome): State
    requires ob.admission.Rejecting?
  {
    var a := ob.admission;
    var u := Update(s, id, ob.cache, Some(RejectChange(s.durable, a.runId, a.request, a.payload)), outcome);
    Put(s.(durable := u.durable), id, ob.(admission := Idle).(cache := u.cache))
  }

  function AdmissionReturns(ob: Observer): Observer
    requires ob.admission.Started? || ob.admission.LookingUp?
  {
    ob.(admission := Idle,
        tracked := if ob.admission.Started? then ob.tracked + {ob.admission.runId} else ob.tracked)
  }

  // ---- The local execution, as far as the ledger is concerned ------------------------

  // The only place where native work is submitted. A detached observer still gets here.
  function DoCall(s: State, id: ObserverId, ob: Observer): State
    requires ob.execution.Some? && ob.execution.value.runId in s.history
  {
    var e := ob.execution.value;
    var s' := Put(s, id, ob.(execution := Some(e.(stage := Called))));
    if e.adopted then s'
    else SetNative(s', e.runId, Live).(calls := s.calls + [Call(e.runId, e.request, e.payload)])
  }

  function DoPersistAccepted(s: State, id: ObserverId, ob: Observer, outcome: Outcome): State
    requires ob.execution.Some?
  {
    var e := ob.execution.value;
    var u := Update(s, id, ob.cache, Some(AcceptChange(s.durable, e.runId)), outcome);
    Put(s.(durable := u.durable), id, ob.(execution := Some(e.(stage := Accepted))).(cache := u.cache))
  }

  function Finish(ob: Observer, ending: Ending): Observer
    requires ob.execution.Some?
  {
    ob.(execution := None,
        finished := ob.finished[ob.execution.value.runId := ending],
        local := if ob.local == Destroyed then Destroyed else if ending.confirmed then Ready else Failed)
  }

  // The continuation `trackRun` attaches to the local result.
  function DecisionFor(ob: Observer, runId: RunId): Decision
    requires runId in ob.finished
  {
    if ob.local == Failed || !ob.finished[runId].confirmed || ob.detached then Unresolved else Keep
  }

  function Decide(ob: Observer, runId: RunId): Observer
    requires runId in ob.finished
  {
    var decision := DecisionFor(ob, runId);
    ob.(decisions := ob.decisions[runId := decision],
        writes := if decision == Unresolved && ob.detached then ob.writes else ob.writes + {runId},
        pendingResults := if decision == Keep then ob.pendingResults + {runId} else ob.pendingResults)
  }

  function OutcomeChange(s: State, ob: Observer, runId: RunId): Ledger
    requires runId in ob.decisions && runId in ob.finished
  {
    if ob.decisions[runId] == Keep then ResultChange(s.durable, runId, ob.finished[runId].result)
    else UnknownChange(s.durable, runId)
  }

  // `again`: another retry of the same write is already queued behind this one.
  function Settle(ob: Observer, runId: RunId, ok: bool, again: bool): Observer {
    ob.(writes := if again then ob.writes else ob.writes - {runId},
        pendingResults := if ok then ob.pendingResults - {runId} else ob.pendingResults)
  }

  function DoPersistOutcome(s: State, id: ObserverId, ob: Observer, runId: RunId, outcome: Outcome, again: bool): State
    requires runId in ob.decisions && runId in ob.finished
  {
    var u := Update(s, id, ob.cache, Some(OutcomeChange(s, ob, runId)), outcome);
    Put(s.(durable := u.durable), id, Settle(ob, runId, u.ok, again).(cache := u.cache))
  }

  // What `getRun` answers.
  datatype RunLookup =
    | Repair(result: RunResult)   // a retained result: save it again, then answer with it
    | Handle                      // the run object handed out before
    | Saved(result: RunResult)    // the recorded result
    | NeedsRecovery
    | Unavailable

  function LookUp(ob: Observer, runId: RunId): RunLookup {
    if runId in ob.pendingResults && runId in ob.finished then Repair(ob.finished[runId].result)
    else if runId in ob.tracked then Handle
    else if runId !in ob.cache.runs then Unavailable
    else if ob.cache.runs[runId].state == Terminal && ob.cache.runs[runId].result.Some? then Saved(ob.cache.runs[runId].result.value)
    else NeedsRecovery
  }

  // ---- Transfers, detaching, closing -------------------------------------------------

  predicate TransferAllowed(ob: Observer) {
    && !ob.detached && !ob.closed
    && ob.admission == Idle && !ob.transfer && ob.local == Ready && ob.cache.active == None
  }

  function Closing(ob: Observer): Observer {
    if ob.closed || ob.detached then ob else ob.(closed := true)
  }

  predicate DetachAllowed(ob: Observer) {
    !ob.detached && ob.admission == Idle && !ob.transfer
  }

  // ---- Recovery ----------------------------------------------------------------------

  function DoResume(s: State): State {
    Put(s, s.nextObserver, NewObserver(s.durable, Restoring))
    .(lease := Some(s.nextObserver), nextObserver := s.nextObserver + 1)
  }

  // `found`: the driver reports the native run of the recorded input.
  function Restored(ob: Observer, found: bool): Observer {
    match ob.cache.active
    case None => ob.(resuming := Attached)
    case Some(runId) =>
      if found then ob.(resuming := Reserving(runId, HighWater(ob.cache, runId)))
      else ob.(resuming := Attached, local := Failed)
  }

  function HighWater(l: Ledger, runId: RunId): nat {
    if runId in l.runs && l.runs[runId].highWater.Some? then l.runs[runId].highWater.value else 0
  }

  function DoPersistWindow(s: State, id: ObserverId, ob: Observer, outcome: Outcome): State
    requires ob.resuming.Reserving?
  {
    var r := ob.resuming;
    var u := Update(s, id, ob.cache, WindowChange(s.durable, r.runId, r.previous), outcome);
    if u.ok then
      Put(s, id, ob.(cache := u.cache, resuming := Adopting(r.runId, r.previous)))
      .(durable := u.durable, reserved := s.reserved[Window(r.runId, r.previous) := id])
    else
      Drop(s.(durable := u.durable), id)
  }

  // Adoption starts a local run over the driver's existing one; it submits nothing.
  function DoAdopt(s: State, id: ObserverId, ob: Observer, refused: bool): State
    requires ob.resuming.Adopting? && ob.resuming.runId in s.history
  {
    var r := ob.resuming;
    if refused then Drop(s, id)
    else
      Put(s, id, AdoptedObserver(s, ob)).(streams := s.streams + [Window(r.runId, r.previous)])
  }

  function AdoptedObserver(s: State, ob: Observer): Observer
    requires ob.resuming.Adopting? && ob.resuming.runId in s.history
  {
    var runId := ob.resuming.runId;
    var origin := s.history[runId];
    ob.(resuming := Attached, local := Running, tracked := ob.tracked + {runId},
        execution := Some(Execution(runId, origin.request, origin.payload, true, Beginning)))
  }

  // ---- Steps -------------------------------------------------------------------------

  datatype Step =
    | RunStep(id: ObserverId, request: Option<RequestId>, payload: Payload)
    | AdmitStep(id: ObserverId, aborted: bool)
    | InspectedStep(id: ObserverId, stop: bool, runId: RunId)
    | PersistIntentStep(id: ObserverId, outcome: Outcome)
    | StartStep(id: ObserverId, refused: bool)
    | PersistRejectionStep(id: ObserverId, outcome: Outcome)
    | AdmissionReturnsStep(id: ObserverId)
    | CallStep(id: ObserverId)
    | PersistAcceptedStep(id: ObserverId, outcome: Outcome)
    | NativeEndsStep(runId: RunId)
    | FinishStep(id: ObserverId, ending: Ending)
    | DecideStep(id: ObserverId, runId: RunId)
    | PersistOutcomeStep(id: ObserverId, runId: RunId, outcome: Outcome, again: bool)
    | RetryStep(id: ObserverId, runId: RunId)
    | OtherUpdateStep(id: ObserverId, outcome: Outcome)
    | BeginTransferStep(id: ObserverId)
    | EndTransferStep(id: ObserverId)
    | BeginDetachStep(id: ObserverId)
    | CommitDetachStep(id: ObserverId)
    | CloseStep(id: ObserverId)
    | DestroyLocalStep(id: ObserverId)
    | LoseLeaseStep(id: ObserverId)
    | CrashStep(id: ObserverId)
    | ResumeStep
    | RestoredStep(id: ObserverId, found: bool)
    | PersistWindowStep(id: ObserverId, outcome: Outcome)
    | AdoptStep(id: ObserverId, refused: bool)

  predicate Enabled(s: State, step: Step) {
    match step
    case ResumeStep => s.lease == None
    case NativeEndsStep(runId) => runId in s.history && s.history[runId].native == Live
    case _ => step.id in s.observers && EnabledFor(s, step, s.observers[step.id])
  }

  predicate EnabledFor(s: State, step: Step, ob: Observer) {
    match step
    case RunStep(_, _, _) => ob.resuming == Attached
    case AdmitStep(_, _) => ob.admission.Queued?
    case InspectedStep(_, _, runId) => ob.admission.Inspecting? && runId !in s.history
    case PersistIntentStep(_, _) => ob.admission.Persisting?
    case StartStep(_, _) => ob.admission.Persisted? && ob.admission.runId in s.history
    case PersistRejectionStep(_, _) => ob.admission.Rejecting?
    case AdmissionReturnsStep(_) => ob.admission.Started? || ob.admission.LookingUp?
    case CallStep(_) =>
      ob.execution.Some? && ob.execution.value.stage == Beginning && ob.execution.value.runId in s.history
    case PersistAcceptedStep(_, _) => ob.execution.Some? && ob.execution.value.stage == Called
    case FinishStep(_, ending) =>
      // A durable session runs in definition mode. There, termination is confirmed only for a
      // run that was called and whose native execution is over: its start was refused or its
      // result settled (RunExecution.ConfirmedMeansOver).
      ob.execution.Some? &&
      (ending.confirmed ==>
         && ob.execution.value.stage != Beginning
         && ob.execution.value.runId in s.history && s.history[ob.execution.value.runId].native == Dead)
    case DecideStep(_, runId) => runId in ob.tracked && runId in ob.finished && runId !in ob.decisions
    case PersistOutcomeStep(_, runId, _, _) => runId in ob.writes && runId in ob.decisions && runId in ob.finished
    case RetryStep(_, runId) => runId in ob.pendingResults
    case BeginTransferStep(_) => ob.resuming == Attached
    case EndTransferStep(_) => ob.transfer
    case BeginDetachStep(_) => ob.resuming == Attached
    case CommitDetachStep(_) => ob.detaching
    case CloseStep(_) => ob.resuming == Attached
    case DestroyLocalStep(_) => ob.closed
    case LoseLeaseStep(_) => s.lease == Some(step.id)
    case RestoredStep(_, found) =>
      // The driver can only report a run it was given.
      ob.resuming == Restoring &&
      (found && ob.cache.active.Some? ==>
         ob.cache.active.value in s.history && s.history[ob.cache.active.value].native in {Live, Dead})
    case PersistWindowStep(_, _) => ob.resuming.Reserving?
    case AdoptStep(_, _) => ob.resuming.Adopting? && ob.resuming.runId in s.history
    case _ => true
  }

  function Next(s: State, step: Step): State
    requires Enabled(s, step)
  {
    match step
    case ResumeStep => DoResume(s)
    case NativeEndsStep(runId) => SetNative(s, runId, Dead)
    case _ => NextFor(s, step, s.observers[step.id])
  }

  function NextFor(s: State, step: Step, ob: Observer): State
    requires !step.ResumeStep? && !step.NativeEndsStep? && EnabledFor(s, step, ob)
  {
    match step
    case RunStep(id, request, payload) => Put(s, id, Run(ob, request, payload))
    case AdmitStep(id, aborted) => Put(s, id, ob.(admission := BeginAdmit(ob, aborted)))
    case InspectedStep(id, stop, runId) => DoInspected(s, id, ob, stop, runId)
    case PersistIntentStep(id, outcome) => DoPersistIntent(s, id, ob, outcome)
    case StartStep(id, refused) => DoStart(s, id, ob, refused)
    case PersistRejectionStep(id, outcome) => DoPersistRejection(s, id, ob, outcome)
    case AdmissionReturnsStep(id) => Put(s, id, AdmissionReturns(ob))
    case CallStep(id) => DoCall(s, id, ob)
    case PersistAcceptedStep(id, outcome) => DoPersistAccepted(s, id, ob, outcome)
    case FinishStep(id, ending) => Put(s, id, Finish(ob, ending))
    case DecideStep(id, runId) => Put(s, id, Decide(ob, runId))
    case PersistOutcomeStep(id, runId, outcome, again) => DoPersistOutcome(s, id, ob, runId, outcome, again)
    case RetryStep(id, runId) => Put(s, id, ob.(writes := ob.writes + {runId}))
    case OtherUpdateStep(id, outcome) =>
      Put(s, id, ob.(cache := Update(s, id, ob.cache, Some(s.durable), outcome).cache))
    case BeginTransferStep(id) => Put(s, id, if TransferAllowed(ob) then ob.(transfer := true) else ob)
    case EndTransferStep(id) => Put(s, id, ob.(transfer := false))
    case BeginDetachStep(id) => Put(s, id, if DetachAllowed(ob) then ob.(detaching := true) else ob)
    case CommitDetachStep(id) => Put(s, id, ob.(detached := true))
    case CloseStep(id) => Put(s, id, Closing(ob))
    case DestroyLocalStep(id) => Put(s, id, ob.(local := Destroyed))
    case LoseLeaseStep(id) => s.(lease := None)
    case CrashStep(id) => Drop(s, id)
    case RestoredStep(id, found) => Put(s, id, Restored(ob, found))
    case PersistWindowStep(id, outcome) => DoPersistWindow(s, id, ob, outcome)
    case AdoptStep(id, refused) => DoAdopt(s, id, ob, refused)
  }
}
