/**
  What every reachable state of the session protocol keeps, and the proof that each step
  keeps it. The proof has three parts per step: the global part, the part about the observer
  that moved, and one shared argument (`OtherUnaffected`) for all other observers.
 */
module SessionInvariants {
  import opened Wrappers
  import opened DurableUpdate
  import opened SessionLedger
  import opened SessionProtocol

  // ---- Global invariants -------------------------------------------------------------

  predicate Submitted(native: NativeStatus) {
    native in {Live, Dead}
  }

  predicate StartedLocally(native: NativeStatus) {
    native in {Armed, Live, Dead}
  }

  ghost predicate RecordMatches(r: RunRecord, origin: Origin) {
    match r.state
    case Rejected => r == RunRecord(Rejected, None, None, None) && origin.native == Refused
    case Terminal => r == RunRecord(Terminal, None, None, r.result) && r.result.Some? && origin.native == Dead
    case _ => r.payload == Some(origin.payload) && r.highWater.Some? && r.result == None
  }

  // The active run is exactly the one open run; every record belongs to its intent.
  ghost predicate LedgerOk(s: State) {
    && (s.durable.active.Some? ==> s.durable.active.value in s.durable.runs)
    && (forall r :: r in s.durable.runs ==> (IsOpen(s.durable.runs[r]) <==> s.durable.active == Some(r)))
    && (forall r :: r in s.durable.runs ==> r in s.history && RecordMatches(s.durable.runs[r], s.history[r]))
    && (forall r :: r in s.history && StartedLocally(s.history[r].native) ==> r in s.durable.runs)
    && |s.durable.requests| <= MAX_REQUESTS
  }

  // Requests and runs point at each other.
  ghost predicate RequestsOk(s: State) {
    && (forall q :: q in s.durable.requests ==>
          && s.durable.requests[q].runId in s.durable.runs
          && s.durable.requests[q].runId in s.history
          && s.history[s.durable.requests[q].runId].request == Some(q)
          && s.history[s.durable.requests[q].runId].payload == s.durable.requests[q].digest
          && (s.durable.requests[q].rejected <==> s.durable.runs[s.durable.requests[q].runId].state == Rejected))
    && (forall r :: r in s.durable.runs && r in s.history && s.history[r].request.Some? ==>
          && s.history[r].request.value in s.durable.requests
          && s.durable.requests[s.history[r].request.value].runId == r)
  }

  ghost predicate WasCalled(calls: seq<Call>, runId: RunId) {
    exists i :: 0 <= i < |calls| && calls[i].runId == runId
  }

  // The call log and the native status of runs agree, and no run is called twice.
  ghost predicate CallsOk(s: State) {
    && (forall r :: r in s.history && Submitted(s.history[r].native) ==> WasCalled(s.calls, r))
    && (forall i :: 0 <= i < |s.calls| ==>
          && s.calls[i].runId in s.history
          && Submitted(s.history[s.calls[i].runId].native)
          && s.calls[i].request == s.history[s.calls[i].runId].request
          && s.calls[i].payload == s.history[s.calls[i].runId].payload)
    && (forall i, k :: 0 <= i < k < |s.calls| ==> s.calls[i].runId != s.calls[k].runId)
  }

  predicate Apart(a: Window, b: Window) {
    a.runId == b.runId ==> a.start + WINDOW <= b.start || b.start + WINDOW <= a.start
  }

  // No window is opened twice.
  ghost predicate OpenedOnce(streams: seq<Window>) {
    forall i, j :: 0 <= i < j < |streams| ==> streams[i] != streams[j]
  }

  ghost predicate WindowsOk(s: State) {
    && (forall w :: w in s.reserved ==>
          && w.runId in s.durable.runs
          && s.reserved[w] < s.nextObserver
          && (IsOpen(s.durable.runs[w.runId]) && s.durable.runs[w.runId].highWater.Some? ==>
                w.start + WINDOW <= s.durable.runs[w.runId].highWater.value))
    && (forall a, b :: a in s.reserved && b in s.reserved && a != b ==> Apart(a, b))
    && (forall w :: w in s.streams ==> w in s.reserved)
    && OpenedOnce(s.streams)
  }

  ghost predicate IdsOk(s: State) {
    && (forall id :: id in s.observers ==> id < s.nextObserver)
    && (forall r :: r in s.history ==> s.history[r].owner < s.nextObserver)
    && (s.lease.Some? ==> s.lease.value in s.observers)
  }

  ghost predicate GlobalOk(s: State) {
    LedgerOk(s) && RequestsOk(s) && CallsOk(s) && WindowsOk(s) && IdsOk(s)
  }

  // ---- Invariants of one observer ----------------------------------------------------

  predicate Owns(s: State, id: ObserverId, runId: RunId, request: Option<RequestId>, payload: Payload, native: NativeStatus) {
    runId in s.history && s.history[runId] == Origin(request, payload, id, native)
  }

  predicate WindowUnused(s: State, id: ObserverId, w: Window) {
    w in s.reserved && s.reserved[w] == id && w !in s.streams
  }

  // The pending request id is remembered, and was never sent to the ledger by this observer.
  predicate NotTried(ob: Observer, request: Option<RequestId>) {
    request.Some? ==> request.value !in ob.attempted && request.value in ob.known
  }

  ghost predicate AdmissionOk(s: State, id: ObserverId, ob: Observer) {
    match ob.admission
    case Idle => true
    case LookingUp(_, _, _) => true
    case Queued(q, p) => NotTried(ob, q)
    case Inspecting(q, p) => NotTried(ob, q)
    case Persisting(q, p, r) => NotTried(ob, q) && Owns(s, id, r, q, p, Reserved) && r !in s.durable.runs
    case Persisted(q, p, r) => Owns(s, id, r, q, p, Reserved) && HasOpen(s.durable, r) && WindowUnused(s, id, Window(r, 0))
    case Rejecting(q, p, r) => Owns(s, id, r, q, p, Refused) && HasOpen(s.durable, r)
    case Started(r) => r in s.history && StartedLocally(s.history[r].native)
  }

  ghost predicate ExecutionOk(s: State, id: ObserverId, ob: Observer) {
    ob.execution.Some? ==>
      var e := ob.execution.value;
      && e.runId in s.history
      && e.runId !in ob.finished
      && s.history[e.runId].request == e.request && s.history[e.runId].payload == e.payload
      && (if e.stage == Beginning && !e.adopted
          then s.history[e.runId].owner == id && s.history[e.runId].native == Armed
          else Submitted(s.history[e.runId].native))
  }

  ghost predicate FinishedOk(s: State, ob: Observer) {
    && (forall r :: r in ob.finished ==>
          && r in s.history && StartedLocally(s.history[r].native)
          && (ob.finished[r].confirmed ==> s.history[r].native == Dead))
    && (forall r :: r in ob.decisions ==> r in ob.finished && (ob.decisions[r] == Keep ==> ob.finished[r].confirmed))
    && (forall r :: r in ob.writes ==> r in ob.decisions)
    && (forall r :: r in ob.pendingResults ==> r in ob.decisions && ob.decisions[r] == Keep)
  }

  ghost predicate ResumingOk(s: State, id: ObserverId, ob: Observer) {
    && (ob.resuming != Attached ==>
          && ob.admission == Idle && !ob.transfer && ob.execution == None && ob.local == Ready
          && ob.finished == map[] && !ob.detaching && !ob.detached && !ob.closed && ob.known == map[])
    && (ob.resuming.Reserving? ==>
          ob.resuming.runId in s.history && Submitted(s.history[ob.resuming.runId].native))
    && (ob.resuming.Adopting? ==>
          && ob.resuming.runId in s.history && Submitted(s.history[ob.resuming.runId].native)
          && WindowUnused(s, id, Window(ob.resuming.runId, ob.resuming.previous)))
  }

  // A file transfer excludes admission and execution.
  predicate TransferOk(ob: Observer) {
    && (ob.transfer ==> ob.admission == Idle && ob.execution == None)
    && (ob.execution.Some? ==> ob.local != Ready)
  }

  // What the lease holder may rely on about the durable record.
  ghost predicate HolderOk(s: State, id: ObserverId, ob: Observer) {
    s.lease == Some(id) ==>
      && (forall q :: q in s.durable.requests ==> q in ob.cache.requests || q in ob.attempted)
      && ((ob.admission.Inspecting? || ob.admission.Persisting?) && ob.admission.request.Some? ==>
            ob.admission.request.value !in s.durable.requests)
      && (ob.execution.Some? ==> HasOpen(s.durable, ob.execution.value.runId))
      && (forall r :: r in ob.finished && (r !in ob.decisions || ob.decisions[r] == Unresolved) ==> HasOpen(s.durable, r))
      && (forall r :: r in ob.finished && r in ob.decisions && ob.decisions[r] == Keep ==> Kept(s, r, ob.finished[r].result))
      && (ob.resuming == Restoring ==> ob.cache == s.durable)
      && (ob.resuming.Reserving? ==>
            HasOpen(s.durable, ob.resuming.runId)
            && s.durable.runs[ob.resuming.runId].highWater == Some(ob.resuming.previous))
      && (ob.resuming.Adopting? ==> HasOpen(s.durable, ob.resuming.runId))
  }

  predicate Kept(s: State, r: RunId, result: RunResult) {
    HasOpen(s.durable, r) || (r in s.durable.runs && s.durable.runs[r] == RunRecord(Terminal, None, None, Some(result)))
  }

  ghost predicate ObserverOk(s: State, id: ObserverId, ob: Observer) {
    && AdmissionOk(s, id, ob) && ExecutionOk(s, id, ob) && FinishedOk(s, ob)
    && ResumingOk(s, id, ob) && TransferOk(ob) && HolderOk(s, id, ob)
    && (forall q :: q in ob.attempted ==> q in ob.known)
  }

  ghost predicate Inv(s: State) {
    GlobalOk(s) && forall id :: id in s.observers ==> ObserverOk(s, id, s.observers[id])
  }

  lemma InvAt(s: State, id: ObserverId)
    requires Inv(s) && id in s.observers
    ensures GlobalOk(s) && ObserverOk(s, id, s.observers[id]) && id < s.nextObserver
  {
    hide ObserverOk;
  }

  // ---- One observer's step seen from the others --------------------------------------

  // What a step of observer `id` may change outside that observer.
  ghost predicate Evolves(s: State, s': State, id: ObserverId) {
    && (forall r :: r in s.history ==> r in s'.history && OriginEvolves(s.history[r], s'.history[r], id))
    && (s.lease != Some(id) ==> s'.durable == s.durable)
    && (forall r :: r in s'.durable.runs && r !in s.durable.runs ==> r in s'.history && s'.history[r].owner == id)
    && (forall r :: HasOpen(s.durable, r) && r in s.history && !HasOpen(s'.durable, r) ==>
          s.history[r].native == Dead || (s.history[r].native == Refused && s.history[r].owner == id))
    && (forall w :: w in s.reserved ==> w in s'.reserved && s'.reserved[w] == s.reserved[w])
    && (forall w :: w in s'.streams && w !in s.streams ==> w in s'.reserved && s'.reserved[w] == id)
    && (s'.lease == s.lease || s'.lease == None || s'.lease == Some(id))
    && s'.observers - {id} == s.observers - {id}
  }

  predicate OriginEvolves(a: Origin, b: Origin, id: ObserverId) {
    && b == a.(native := b.native)
    && (|| b.native == a.native
        || (a.native == Live && b.native == Dead)
        || (a.owner == id && a.native == Reserved && b.native in {Refused, Armed})
        || (a.owner == id && a.native == Armed && b.native == Live))
  }

  lemma OtherAdmission(s: State, s': State, id: ObserverId, other: ObserverId, ob: Observer)
    requires AdmissionOk(s, other, ob) && other != id && Evolves(s, s', id)
    ensures AdmissionOk(s', other, ob)
  {
  }

  lemma OtherExecution(s: State, s': State, id: ObserverId, other: ObserverId, ob: Observer)
    requires ExecutionOk(s, other, ob) && other != id && Evolves(s, s', id)
    ensures ExecutionOk(s', other, ob)
  {
  }

  lemma OtherFinished(s: State, s': State, id: ObserverId, other: ObserverId, ob: Observer)
    requires FinishedOk(s, ob) && other != id && Evolves(s, s', id)
    ensures FinishedOk(s', ob)
  {
  }

  lemma OtherResuming(s: State, s': State, id: ObserverId, other: ObserverId, ob: Observer)
    requires ResumingOk(s, other, ob) && other != id && Evolves(s, s', id)
    ensures ResumingOk(s', other, ob)
  {
  }

  lemma OtherHolder(s: State, s': State, id: ObserverId, other: ObserverId, ob: Observer)
    requires HolderOk(s, other, ob) && other != id && Evolves(s, s', id)
    ensures HolderOk(s', other, ob)
  {
  }

  lemma OtherUnaffected(s: State, s': State, id: ObserverId, other: ObserverId, ob: Observer)
    requires ObserverOk(s, other, ob) && other != id && Evolves(s, s', id)
    ensures ObserverOk(s', other, ob)
  {
    hide AdmissionOk, ExecutionOk, FinishedOk, ResumingOk, HolderOk, Evolves, TransferOk;
    OtherAdmission(s, s', id, other, ob);
    OtherExecution(s, s', id, other, ob);
    OtherFinished(s, s', id, other, ob);
    OtherResuming(s, s', id, other, ob);
    OtherHolder(s, s', id, other, ob);
  }

  // A step of `id` keeps the invariant if it keeps the global part and `id`'s own part.
  lemma Compose(s: State, s': State, id: ObserverId)
    requires Inv(s) && Evolves(s, s', id)
    requires GlobalOk(s')
    requires id in s'.observers ==> ObserverOk(s', id, s'.observers[id])
    ensures Inv(s')
  {
    hide GlobalOk, ObserverOk;
    forall other | other in s'.observers ensures ObserverOk(s', other, s'.observers[other]) {
      if other != id {
        assert other in s'.observers - {id};
        assert other in s.observers && s.observers[other] == s'.observers[other];
        OtherUnaffected(s, s', id, other, s.observers[other]);
      }
    }
  }

  // ---- Steps that only move the observer itself --------------------------------------

  lemma LocalStep(s: State, id: ObserverId, ob': Observer)
    requires Inv(s) && id in s.observers && ObserverOk(s, id, ob')
    ensures Inv(Put(s, id, ob'))
  {
    hide ObserverOk, GlobalOk, Evolves;
    var s' := Put(s, id, ob');
    SameGlobals(s, s');
    SameObserverOk(s, s', id, ob');
    assert s'.observers - {id} == s.observers - {id};
    EvolvesLocally(s, s', id);
    Compose(s, s', id);
  }

  lemma EvolvesLocally(s: State, s': State, id: ObserverId)
    requires s' == s.(observers := s'.observers) && s'.observers - {id} == s.observers - {id}
    ensures Evolves(s, s', id)
  {
  }

  // The invariants never look at other observers.
  lemma SameGlobals(s: State, s': State)
    requires GlobalOk(s) && s'.observers.Keys == s.observers.Keys && s' == s.(observers := s'.observers)
    ensures GlobalOk(s')
  {
  }

  lemma SameObserverOk(s: State, s': State, id: ObserverId, ob: Observer)
    requires ObserverOk(s, id, ob) && s' == s.(observers := s'.observers)
    ensures ObserverOk(s', id, ob)
  {
  }

  // Only the admission of an attached, idle-for-transfer observer changes.
  lemma AdmissionMoves(s: State, id: ObserverId, ob: Observer, a: Admission)
    requires ObserverOk(s, id, ob) && ob.resuming == Attached && !ob.transfer
    requires AdmissionOk(s, id, ob.(admission := a))
    requires s.lease == Some(id) && (a.Inspecting? || a.Persisting?) && a.request.Some? ==>
               a.request.value !in s.durable.requests
    ensures ObserverOk(s, id, ob.(admission := a))
  {
    hide AdmissionOk;
  }

  lemma BusyIsAttached(s: State, id: ObserverId, ob: Observer)
    requires ObserverOk(s, id, ob) && ob.admission != Idle
    ensures ob.resuming == Attached && !ob.transfer
  {
  }

  lemma RunKeeps(s: State, id: ObserverId, ob: Observer, request: Option<RequestId>, payload: Payload)
    requires ObserverOk(s, id, ob) && ob.resuming == Attached
    ensures ObserverOk(s, id, Run(ob, request, payload))
  {
    if RunReplyTo(ob, request, payload) == Admit {
      var ob1 := ob.(known := Run(ob, request, payload).known);
      KnownGrows(s, id, ob, ob1.known);
      assert NotTried(ob1, request);
      AdmissionMoves(s, id, ob1, Queued(request, payload));
    }
  }

  lemma KnownGrows(s: State, id: ObserverId, ob: Observer, known: map<RequestId, Payload>)
    requires ObserverOk(s, id, ob) && ob.resuming == Attached && forall q :: q in ob.known ==> q in known
    ensures ObserverOk(s, id, ob.(known := known))
  {
  }

  lemma AdmitKeeps(s: State, id: ObserverId, ob: Observer, aborted: bool)
    requires ObserverOk(s, id, ob) && ob.admission.Queued?
    ensures ObserverOk(s, id, ob.(admission := BeginAdmit(ob, aborted)))
  {
    hide ExecutionOk, FinishedOk;
    AdmissionMoves(s, id, ob, BeginAdmit(ob, aborted));
  }

  lemma AdmissionReturnsKeeps(s: State, id: ObserverId, ob: Observer)
    requires ObserverOk(s, id, ob) && (ob.admission.Started? || ob.admission.LookingUp?)
    ensures ObserverOk(s, id, AdmissionReturns(ob))
  {
  }

  lemma FinishKeeps(s: State, id: ObserverId, ob: Observer, ending: Ending)
    requires ObserverOk(s, id, ob) && EnabledFor(s, FinishStep(id, ending), ob)
    ensures ObserverOk(s, id, Finish(ob, ending))
  {
    var ob' := Finish(ob, ending);
    assert AdmissionOk(s, id, ob');
    assert FinishedOk(s, ob') && ResumingOk(s, id, ob');
    assert HolderOk(s, id, ob');
  }

  lemma DecideKeeps(s: State, id: ObserverId, ob: Observer, runId: RunId)
    requires ObserverOk(s, id, ob) && runId in ob.finished && runId !in ob.decisions
    ensures ObserverOk(s, id, Decide(ob, runId))
  {
    hide AdmissionOk, ExecutionOk, FinishedOk, ResumingOk, TransferOk, HolderOk, DecisionFor;
    var decision, ob1 := DecisionFor(ob, runId), Decide(ob, runId);
    KeepIsConfirmed(ob, runId);
    DecisionSettles(s, id, ob, runId, decision);
    DecideBookkeeping(s, ob, runId);
    hide Decide;
    BookkeepingMoves(s, id, ob.(decisions := ob.decisions[runId := decision]), ob1.writes, ob1.pendingResults);
  }

  lemma KeepIsConfirmed(ob: Observer, runId: RunId)
    requires runId in ob.finished
    ensures DecisionFor(ob, runId) == Keep ==> ob.finished[runId].confirmed
  {
  }

  lemma DecideBookkeeping(s: State, ob: Observer, runId: RunId)
    requires FinishedOk(s, ob) && runId in ob.finished && runId !in ob.decisions
    ensures var ob1 := Decide(ob, runId);
            && ob1 == ob.(decisions := ob.decisions[runId := DecisionFor(ob, runId)]).(writes := ob1.writes, pendingResults := ob1.pendingResults)
            && (forall r :: r in ob1.writes ==> r in ob1.decisions)
            && (forall r :: r in ob1.pendingResults ==> r in ob1.decisions && ob1.decisions[r] == Keep)
  {
    hide DecisionFor;
  }

  lemma DecisionSettles(s: State, id: ObserverId, ob: Observer, runId: RunId, decision: Decision)
    requires ObserverOk(s, id, ob) && runId in ob.finished && runId !in ob.decisions
    requires decision == Keep ==> ob.finished[runId].confirmed
    ensures ObserverOk(s, id, ob.(decisions := ob.decisions[runId := decision]))
  {
  }

  lemma BookkeepingMoves(s: State, id: ObserverId, ob: Observer, writes: set<RunId>, pendingResults: set<RunId>)
    requires ObserverOk(s, id, ob)
    requires forall r :: r in writes ==> r in ob.decisions
    requires forall r :: r in pendingResults ==> r in ob.decisions && ob.decisions[r] == Keep
    ensures ObserverOk(s, id, ob.(writes := writes, pendingResults := pendingResults))
  {
  }

  lemma RestoredKeeps(s: State, id: ObserverId, ob: Observer, found: bool)
    requires LedgerOk(s) && ObserverOk(s, id, ob) && EnabledFor(s, RestoredStep(id, found), ob)
    ensures ObserverOk(s, id, Restored(ob, found))
  {
    var ob' := Restored(ob, found);
    assert ResumingOk(s, id, ob');
    assert HolderOk(s, id, ob');
  }

  // Detaching, closing, transferring: flags of an attached observer.
  lemma FlagsMove(s: State, id: ObserverId, ob: Observer, ob': Observer)
    requires ObserverOk(s, id, ob) && ob.resuming == Attached && TransferOk(ob')
    requires ob' == ob.(detaching := ob'.detaching, detached := ob'.detached, closed := ob'.closed,
                        transfer := ob'.transfer, local := ob'.local)
    ensures ObserverOk(s, id, ob')
  {
  }

  lemma CacheMoves(s: State, id: ObserverId, ob: Observer, cache: Ledger)
    requires ObserverOk(s, id, ob) && (cache == ob.cache || cache == s.durable)
    ensures ObserverOk(s, id, ob.(cache := cache))
  {
  }

  // ---- Ledger changes keep the global invariants -------------------------------------

  lemma AdmitKeepsLedger(s: State, id: ObserverId, runId: RunId, request: Option<RequestId>, payload: Payload)
    requires LedgerOk(s) && Owns(s, id, runId, request, payload, Reserved) && runId !in s.durable.runs
    requires AdmitChange(s.durable, runId, request, payload).Some?
    ensures LedgerOk(Admitted(s, id, runId, request, payload))
  {
  }

  lemma AdmitKeepsRequests(s: State, id: ObserverId, runId: RunId, request: Option<RequestId>, payload: Payload)
    requires RequestsOk(s) && Owns(s, id, runId, request, payload, Reserved) && runId !in s.durable.runs
    requires AdmitChange(s.durable, runId, request, payload).Some?
    requires request.Some? ==> request.value !in s.durable.requests
    ensures RequestsOk(Admitted(s, id, runId, request, payload))
  {
  }

  lemma AdmitKeepsWindows(s: State, id: ObserverId, runId: RunId, request: Option<RequestId>, payload: Payload)
    requires WindowsOk(s) && runId !in s.durable.runs && id < s.nextObserver
    requires AdmitChange(s.durable, runId, request, payload).Some?
    ensures WindowsOk(Admitted(s, id, runId, request, payload))
  {
  }

  lemma AdmitKeepsGlobal(s: State, id: ObserverId, runId: RunId, request: Option<RequestId>, payload: Payload)
    requires GlobalOk(s) && id < s.nextObserver && Owns(s, id, runId, request, payload, Reserved)
    requires runId !in s.durable.runs && (request.Some? ==> request.value !in s.durable.requests)
    requires AdmitChange(s.durable, runId, request, payload).Some?
    ensures GlobalOk(Admitted(s, id, runId, request, payload))
  {
    AdmitKeepsLedger(s, id, runId, request, payload);
    AdmitKeepsRequests(s, id, runId, request, payload);
    AdmitKeepsWindows(s, id, runId, request, payload);
    hide LedgerOk, RequestsOk, WindowsOk, CallsOk, IdsOk, AdmitChange;
    CallsIgnoreLedger(s, Admitted(s, id, runId, request, payload));
  }

  // Rewriting the record of one run, leaving intents, calls and reservations alone.
  lemma RecordKeepsWindows(s: State, d: Ledger)
    requires WindowsOk(s) && s.durable.runs.Keys <= d.runs.Keys
    requires forall r :: r in s.durable.runs && IsOpen(d.runs[r]) ==>
               IsOpen(s.durable.runs[r]) && d.runs[r].highWater == s.durable.runs[r].highWater
    ensures WindowsOk(s.(durable := d))
  {
  }

  lemma LedgerOnly(s: State, d: Ledger)
    requires GlobalOk(s)
    requires LedgerOk(s.(durable := d)) && RequestsOk(s.(durable := d)) && WindowsOk(s.(durable := d))
    ensures GlobalOk(s.(durable := d))
  {
    hide LedgerOk, RequestsOk, WindowsOk, CallsOk, IdsOk;
    CallsIgnoreLedger(s, s.(durable := d));
  }

  // Calls and observer ids do not depend on the ledger or on reservations.
  lemma CallsIgnoreLedger(s: State, s': State)
    requires CallsOk(s) && IdsOk(s)
    requires s' == s.(durable := s'.durable, reserved := s'.reserved, streams := s'.streams)
    ensures CallsOk(s') && IdsOk(s')
  {
  }

  lemma RejectKeepsGlobal(s: State, id: ObserverId, runId: RunId, request: Option<RequestId>, payload: Payload)
    requires GlobalOk(s) && Owns(s, id, runId, request, payload, Refused) && HasOpen(s.durable, runId)
    ensures GlobalOk(s.(durable := RejectChange(s.durable, runId, request, payload)))
  {
    hide WindowsOk, CallsOk, IdsOk, LedgerOk, RequestsOk, RejectChange;
    RejectKeepsRequests(s, id, runId, request, payload);
    RejectKeepsLedger(s, id, runId, request, payload);
    RejectKeepsWindows(s, id, runId, request, payload);
    LedgerOnly(s, RejectChange(s.durable, runId, request, payload));
  }

  lemma RejectKeepsWindows(s: State, id: ObserverId, runId: RunId, request: Option<RequestId>, payload: Payload)
    requires WindowsOk(s)
    ensures WindowsOk(s.(durable := RejectChange(s.durable, runId, request, payload)))
  {
    RecordKeepsWindows(s, RejectChange(s.durable, runId, request, payload));
  }

  lemma RejectKeepsLedger(s: State, id: ObserverId, runId: RunId, request: Option<RequestId>, payload: Payload)
    requires LedgerOk(s) && Owns(s, id, runId, request, payload, Refused) && HasOpen(s.durable, runId)
    requires |RejectChange(s.durable, runId, request, payload).requests| == |s.durable.requests|
    ensures LedgerOk(s.(durable := RejectChange(s.durable, runId, request, payload)))
  {
  }

  lemma RejectKeepsRequests(s: State, id: ObserverId, runId: RunId, request: Option<RequestId>, payload: Payload)
    requires RequestsOk(s) && Owns(s, id, runId, request, payload, Refused) && HasOpen(s.durable, runId)
    ensures RequestsOk(s.(durable := RejectChange(s.durable, runId, request, payload)))
    ensures |RejectChange(s.durable, runId, request, payload).requests| == |s.durable.requests|
  {
    var d := RejectChange(s.durable, runId, request, payload);
    assert d.requests.Keys == s.durable.requests.Keys;
    assert |d.requests| == |d.requests.Keys| && |s.durable.requests| == |s.durable.requests.Keys|;
  }

  lemma RelabelKeepsGlobal(s: State, runId: RunId, state: RunState)
    requires GlobalOk(s) && HasOpen(s.durable, runId) && state in {Observing, Unknown}
    ensures GlobalOk(s.(durable := SetState(s.durable, runId, state)))
  {
    hide LedgerOk, RequestsOk, WindowsOk, CallsOk, IdsOk, SetState, HasOpen;
    RelabelKeepsLedger(s, runId, state);
    RelabelKeepsRequests(s, runId, state);
    RelabelKeepsWindows(s, runId, state);
    LedgerOnly(s, SetState(s.durable, runId, state));
  }

  lemma RelabelKeepsLedger(s: State, runId: RunId, state: RunState)
    requires LedgerOk(s) && HasOpen(s.durable, runId) && state in {Observing, Unknown}
    ensures LedgerOk(s.(durable := SetState(s.durable, runId, state)))
  {
  }

  lemma RelabelKeepsWindows(s: State, runId: RunId, state: RunState)
    requires WindowsOk(s) && HasOpen(s.durable, runId) && state in {Observing, Unknown}
    ensures WindowsOk(s.(durable := SetState(s.durable, runId, state)))
  {
    RecordKeepsWindows(s, SetState(s.durable, runId, state));
  }

  lemma RelabelKeepsRequests(s: State, runId: RunId, state: RunState)
    requires RequestsOk(s) && HasOpen(s.durable, runId) && state in {Observing, Unknown}
    ensures RequestsOk(s.(durable := SetState(s.durable, runId, state)))
  {
  }

  lemma ResultKeepsGlobal(s: State, runId: RunId, result: RunResult)
    requires GlobalOk(s) && Kept(s, runId, result) && runId in s.history && s.history[runId].native == Dead
    ensures GlobalOk(s.(durable := ResultChange(s.durable, runId, result)))
  {
    hide RequestsOk, WindowsOk, CallsOk, IdsOk, LedgerOk, Kept, ResultChange;
    ResultKeepsLedger(s, runId, result);
    ResultKeepsRequests(s, runId, result);
    ResultKeepsWindows(s, runId, result);
    LedgerOnly(s, ResultChange(s.durable, runId, result));
  }

  lemma ResultKeepsLedger(s: State, runId: RunId, result: RunResult)
    requires LedgerOk(s) && Kept(s, runId, result) && runId in s.history && s.history[runId].native == Dead
    ensures LedgerOk(s.(durable := ResultChange(s.durable, runId, result)))
  {
  }

  lemma ResultKeepsWindows(s: State, runId: RunId, result: RunResult)
    requires WindowsOk(s)
    ensures WindowsOk(s.(durable := ResultChange(s.durable, runId, result)))
  {
    RecordKeepsWindows(s, ResultChange(s.durable, runId, result));
  }

  lemma ResultKeepsRequests(s: State, runId: RunId, result: RunResult)
    requires RequestsOk(s) && Kept(s, runId, result)
    ensures RequestsOk(s.(durable := ResultChange(s.durable, runId, result)))
  {
  }

  // Raising the high water of an open run, and reserving what that made room for.
  function Raised(s: State, runId: RunId, previous: nat): State
    requires runId in s.durable.runs
  {
    s.(durable := WindowChange(s.durable, runId, previous).value)
  }

  lemma WindowKeepsGlobal(s: State, id: ObserverId, runId: RunId, previous: nat)
    requires GlobalOk(s) && id < s.nextObserver && HasOpen(s.durable, runId)
    requires s.durable.runs[runId].highWater == Some(previous)
    ensures GlobalOk(Raised(s, runId, previous))
    ensures GlobalOk(Raised(s, runId, previous).(reserved := s.reserved[Window(runId, previous) := id]))
    ensures Window(runId, previous) !in s.reserved
  {
    hide LedgerOk, RequestsOk, WindowsOk, CallsOk, IdsOk, WindowChange;
    RaisingKeepsLedger(s, runId, previous);
    RaisingKeepsWindows(s, id, runId, previous);
    CallsIgnoreLedger(s, Raised(s, runId, previous));
    hide HasOpen;
    SameButReserved(Raised(s, runId, previous), s.reserved[Window(runId, previous) := id]);
  }

  lemma SameButReserved(s: State, reserved: map<Window, ObserverId>)
    requires LedgerOk(s) && RequestsOk(s) && CallsOk(s) && IdsOk(s)
    ensures var s' := s.(reserved := reserved); LedgerOk(s') && RequestsOk(s') && CallsOk(s') && IdsOk(s')
  {
  }

  lemma RaisingKeepsLedger(s: State, runId: RunId, previous: nat)
    requires LedgerOk(s) && RequestsOk(s) && HasOpen(s.durable, runId)
    ensures LedgerOk(Raised(s, runId, previous)) && RequestsOk(Raised(s, runId, previous))
  {
  }

  lemma RaisingKeepsWindows(s: State, id: ObserverId, runId: RunId, previous: nat)
    requires WindowsOk(s) && id < s.nextObserver && HasOpen(s.durable, runId)
    requires s.durable.runs[runId].highWater == Some(previous)
    ensures WindowsOk(Raised(s, runId, previous))
    ensures WindowsOk(Raised(s, runId, previous).(reserved := s.reserved[Window(runId, previous) := id]))
    ensures Window(runId, previous) !in s.reserved
  {
    // Every window of this run reserved so far ends at or below the old high water.
    assert forall w :: w in s.reserved && w.runId == runId ==> w.start + WINDOW <= previous;
  }

  lemma NewRunKeepsGlobal(s: State, runId: RunId, origin: Origin)
    requires GlobalOk(s) && runId !in s.history && origin.native == Reserved && origin.owner < s.nextObserver
    ensures GlobalOk(s.(history := s.history[runId := origin]))
  {
    var s' := s.(history := s.history[runId := origin]);
    NewRunKeepsLedger(s, runId, origin);
    NewRunKeepsRequests(s, runId, origin);
    WindowsIgnoreHistory(s, s'.history);
    NewRunKeepsCalls(s, runId, origin);
    hide LedgerOk, RequestsOk, WindowsOk, CallsOk;
  }

  lemma NewRunKeepsCalls(s: State, runId: RunId, origin: Origin)
    requires CallsOk(s) && runId !in s.history && origin.native == Reserved
    ensures CallsOk(s.(history := s.history[runId := origin]))
  {
    hide WasCalled;
  }

  lemma NewRunKeepsLedger(s: State, runId: RunId, origin: Origin)
    requires LedgerOk(s) && runId !in s.history && origin.native == Reserved
    ensures LedgerOk(s.(history := s.history[runId := origin]))
  {
  }

  lemma NewRunKeepsRequests(s: State, runId: RunId, origin: Origin)
    requires LedgerOk(s) && RequestsOk(s) && runId !in s.history
    ensures RequestsOk(s.(history := s.history[runId := origin]))
  {
  }

  predicate NativeMove(s: State, runId: RunId, native: NativeStatus)
    requires runId in s.history
  {
    || (s.history[runId].native == Reserved && native == Refused)
    || (s.history[runId].native == Reserved && native == Armed && HasOpen(s.durable, runId))
    || (s.history[runId].native == Live && native == Dead)
  }

  lemma NativeMoveKeepsGlobal(s: State, runId: RunId, native: NativeStatus)
    requires GlobalOk(s) && runId in s.history && NativeMove(s, runId, native)
    ensures GlobalOk(SetNative(s, runId, native))
  {
    NativeMoveKeepsLedger(s, runId, native);
    NativeMoveKeepsCalls(s, runId, native);
    NativeMoveKeepsRequests(s, runId, native);
    WindowsIgnoreHistory(s, SetNative(s, runId, native).history);
    hide WindowsOk, RequestsOk, LedgerOk, CallsOk, NativeMove;
    IdsIgnoreNative(s, runId, native);
    hide IdsOk, SetNative;
  }

  lemma IdsIgnoreNative(s: State, runId: RunId, native: NativeStatus)
    requires IdsOk(s) && runId in s.history
    ensures IdsOk(SetNative(s, runId, native))
  {
  }

  lemma NativeMoveKeepsLedger(s: State, runId: RunId, native: NativeStatus)
    requires LedgerOk(s) && runId in s.history && NativeMove(s, runId, native)
    ensures LedgerOk(SetNative(s, runId, native))
  {
  }

  lemma NativeMoveKeepsCalls(s: State, runId: RunId, native: NativeStatus)
    requires CallsOk(s) && runId in s.history && NativeMove(s, runId, native)
    ensures CallsOk(SetNative(s, runId, native))
  {
  }

  lemma NativeMoveKeepsRequests(s: State, runId: RunId, native: NativeStatus)
    requires RequestsOk(s) && runId in s.history
    ensures RequestsOk(SetNative(s, runId, native))
  {
  }

  lemma WindowsIgnoreHistory(s: State, history: map<RunId, Origin>)
    requires WindowsOk(s)
    ensures WindowsOk(s.(history := history))
  {
  }

  function WithCall(s: State, runId: RunId): State
    requires runId in s.history
  {
    SetNative(s, runId, Live).(
      calls := s.calls + [Call(runId, s.history[runId].request, s.history[runId].payload)])
  }

  lemma CallKeepsGlobal(s: State, runId: RunId)
    requires GlobalOk(s) && runId in s.history && s.history[runId].native == Armed
    ensures GlobalOk(WithCall(s, runId))
  {
    CallKeepsCalls(s, runId);
    CallKeepsLedger(s, runId);
    NativeMoveKeepsRequests(s, runId, Live);
    WindowsIgnoreHistory(s, SetNative(s, runId, Live).history);
    IdsIgnoreNative(s, runId, Live);
    hide LedgerOk, RequestsOk, WindowsOk, IdsOk, CallsOk;
    SameButCalls(SetNative(s, runId, Live), WithCall(s, runId));
  }

  lemma CallKeepsLedger(s: State, runId: RunId)
    requires LedgerOk(s) && runId in s.history && s.history[runId].native == Armed
    ensures LedgerOk(SetNative(s, runId, Live))
  {
  }

  // A run that was never called is called now; no earlier call was for it.
  lemma CallKeepsCalls(s: State, runId: RunId)
    requires CallsOk(s) && runId in s.history && s.history[runId].native == Armed
    ensures CallsOk(WithCall(s, runId))
  {
    assert forall i :: 0 <= i < |s.calls| ==> s.calls[i].runId != runId;
    var calls := WithCall(s, runId).calls;
    assert calls[|s.calls|].runId == runId;
    assert WasCalled(calls, runId);
    forall r | WasCalled(s.calls, r) ensures WasCalled(calls, r) {
      var i :| 0 <= i < |s.calls| && s.calls[i].runId == r;
      assert calls[i].runId == r;
    }
  }

  lemma SameButCalls(s: State, s': State)
    requires s' == s.(calls := s'.calls)
    requires LedgerOk(s) && RequestsOk(s) && WindowsOk(s) && IdsOk(s)
    ensures LedgerOk(s') && RequestsOk(s') && WindowsOk(s') && IdsOk(s')
  {
  }
}
