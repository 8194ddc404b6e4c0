/**
  Every step of the session protocol keeps `Inv`. Steps that only move the observer are
  covered by `SessionInvariants`; this module adds those that also write the durable record,
  advance a run towards the driver, or create and remove observers.
 */
module SessionSteps {
  import opened Wrappers
  import opened DurableUpdate
  import opened SessionLedger
  import opened SessionProtocol
  import opened SessionInvariants

  // The shared part moves from `s` to `s1`, then the observer to `ob'`.
  lemma SharedStep(s: State, s1: State, id: ObserverId, ob': Observer)
    requires Inv(s) && id in s.observers && s1.observers == s.observers
    requires GlobalOk(s1) && Evolves(s, s1, id) && ObserverOk(s1, id, ob')
    ensures Inv(Put(s1, id, ob'))
  {
    hide ObserverOk, GlobalOk;
    var s' := Put(s1, id, ob');
    SameGlobals(s1, s');
    SameObserverOk(s1, s', id, ob');
    assert s'.observers - {id} == s.observers - {id};
    assert Evolves(s, s', id);
    Compose(s, s', id);
  }

  // ---- Admission ---------------------------------------------------------------------

  lemma InspectedKeeps(s: State, id: ObserverId, ob: Observer, stop: bool, runId: RunId)
    requires Inv(s) && id in s.observers && s.observers[id] == ob
    requires ob.admission.Inspecting? && runId !in s.history
    ensures Inv(DoInspected(s, id, ob, stop, runId))
  {
    hide Inv, GlobalOk, ObserverOk, Evolves;
    InvAt(s, id);
    var a := ob.admission;
    if stop || ob.cache.active.Some? {
      IdleAdmission(s, id, ob);
    } else {
      var origin := Origin(a.request, a.payload, id, Reserved);
      var s1 := s.(history := s.history[runId := origin]);
      NewRunKeepsGlobal(s, runId, origin);
      NewRunOwn(s, s1, id, ob, runId, origin);
      NewRunEvolves(s, s1, id, runId, origin);
      SharedStep(s, s1, id, ob.(admission := Persisting(a.request, a.payload, runId)));
    }
  }

  lemma IdleAdmission(s: State, id: ObserverId, ob: Observer)
    requires Inv(s) && id in s.observers && s.observers[id] == ob && ob.admission != Idle
    ensures Inv(Put(s, id, ob.(admission := Idle)))
  {
    hide Inv, GlobalOk, ObserverOk;
    InvAt(s, id);
    BusyIsAttached(s, id, ob);
    AdmissionMoves(s, id, ob, Idle);
    LocalStep(s, id, ob.(admission := Idle));
  }

  lemma NewRunEvolves(s: State, s1: State, id: ObserverId, runId: RunId, origin: Origin)
    requires runId !in s.history && s1 == s.(history := s.history[runId := origin])
    ensures Evolves(s, s1, id)
  {
  }

  lemma NewRunOwn(s: State, s1: State, id: ObserverId, ob: Observer, runId: RunId, origin: Origin)
    requires ObserverOk(s, id, ob) && GlobalOk(s) && ob.admission.Inspecting? && runId !in s.history
    requires origin == Origin(ob.admission.request, ob.admission.payload, id, Reserved)
    requires s1 == s.(history := s.history[runId := origin])
    ensures ObserverOk(s1, id, ob.(admission := Persisting(origin.request, origin.payload, runId)))
  {
    FreshRunPending(s, s1, id, ob, runId, origin);
    hide GlobalOk, ObserverOk, AdmissionOk, Evolves;
    NewRunEvolves(s, s1, id + 1, runId, origin);
    OtherUnaffected(s, s1, id + 1, id, ob);
    AdmissionMoves(s1, id, ob, Persisting(origin.request, origin.payload, runId));
  }

  lemma FreshRunPending(s: State, s1: State, id: ObserverId, ob: Observer, runId: RunId, origin: Origin)
    requires ObserverOk(s, id, ob) && GlobalOk(s) && ob.admission.Inspecting? && runId !in s.history
    requires origin == Origin(ob.admission.request, ob.admission.payload, id, Reserved)
    requires s1 == s.(history := s.history[runId := origin])
    ensures AdmissionOk(s1, id, ob.(admission := Persisting(origin.request, origin.payload, runId)))
    ensures ob.resuming == Attached && !ob.transfer
    ensures s.lease == Some(id) && origin.request.Some? ==> origin.request.value !in s.durable.requests
  {
    assert runId !in s.durable.runs;
    hide GlobalOk;
  }

  lemma PersistIntentKeeps(s: State, id: ObserverId, ob: Observer, outcome: Outcome)
    requires Inv(s) && id in s.observers && s.observers[id] == ob && ob.admission.Persisting?
    ensures Inv(DoPersistIntent(s, id, ob, outcome))
  {
    hide Inv, Update, AdmitChange, GlobalOk, ObserverOk, Evolves, PendingIntent, Put, Admitted;
    InvAt(s, id);
    var a := ob.admission;
    var u := Update(s, id, ob.cache, AdmitChange(s.durable, a.runId, a.request, a.payload), outcome);
    TriedOk(s, id, ob);
    if u.durable == s.durable {
      AdmitAlwaysChanges(s, a.runId, a.request, a.payload);
      CacheMoves(s, id, Tried(ob), u.cache);
      LocalStep(s, id, Tried(ob).(cache := u.cache));
    } else {
      IntentIsNew(s, id, ob);
      IntentWritten(s, id, ob, u.cache, u.ok);
    }
  }

  lemma TriedOk(s: State, id: ObserverId, ob: Observer)
    requires ObserverOk(s, id, ob) && ob.admission.Persisting?
    ensures ObserverOk(s, id, Tried(ob)) && ob.resuming == Attached && !ob.transfer
  {
  }

  lemma AdmitAlwaysChanges(s: State, runId: RunId, request: Option<RequestId>, payload: Payload)
    ensures AdmitChange(s.durable, runId, request, payload) != Some(s.durable)
  {
  }

  // The ghost consequences of a pending intent of the lease holder.
  ghost predicate PendingIntent(s: State, id: ObserverId, a: Admission) {
    && a.Persisting? && a.runId !in s.durable.runs
    && Owns(s, id, a.runId, a.request, a.payload, Reserved)
    && (s.lease == Some(id) && a.request.Some? ==> a.request.value !in s.durable.requests)
    && (forall w :: w in s.reserved ==> w.runId != a.runId)
    && Window(a.runId, 0) !in s.streams
  }

  lemma IntentIsNew(s: State, id: ObserverId, ob: Observer)
    requires GlobalOk(s) && ObserverOk(s, id, ob) && ob.admission.Persisting?
    ensures PendingIntent(s, id, ob.admission)
  {
  }

  lemma IntentWritten(s: State, id: ObserverId, ob: Observer, cache: Ledger, ok: bool)
    requires Inv(s) && id in s.observers && s.observers[id] == ob && s.lease == Some(id)
    requires ob.admission.Persisting? && PendingIntent(s, id, ob.admission) && ob.resuming == Attached && !ob.transfer
    requires ObserverOk(s, id, Tried(ob))
    requires AdmitChange(s.durable, ob.admission.runId, ob.admission.request, ob.admission.payload).Some?
    requires var d := AdmitChange(s.durable, ob.admission.runId, ob.admission.request, ob.admission.payload).value;
             if ok then cache == d else cache == ob.cache || cache == s.durable
    ensures var a := ob.admission;
            Inv(Put(Admitted(s, id, a.runId, a.request, a.payload), id,
                    Tried(ob).(cache := cache, admission := if ok then Persisted(a.request, a.payload, a.runId) else Idle)))
  {
    hide Inv, GlobalOk, ObserverOk, Evolves, AdmitChange, AdmissionOk, PendingIntent;
    InvAt(s, id);
    var a := ob.admission;
    var s1 := Admitted(s, id, a.runId, a.request, a.payload);
    PendingKeepsGlobal(s, id, a);
    AdmitEvolves(s, s1, id, a);
    var ob1 := if ok then Tried(ob) else Tried(ob).(cache := cache);
    if !ok {
      CacheMoves(s, id, Tried(ob), cache);
    }
    IntentKeepsHolder(s, s1, id, a, ob1);
    if ok {
      CacheMoves(s1, id, ob1, cache);
      FreshIntentPersisted(s, s1, id, a, ob1.(cache := cache));
      AdmissionMoves(s1, id, ob1.(cache := cache), Persisted(a.request, a.payload, a.runId));
      SharedStep(s, s1, id, ob1.(cache := cache, admission := Persisted(a.request, a.payload, a.runId)));
    } else {
      SharedStep(s, s1, id, ob1);
    }
  }

  lemma PendingKeepsGlobal(s: State, id: ObserverId, a: Admission)
    requires a.Persisting? && GlobalOk(s) && id < s.nextObserver && PendingIntent(s, id, a) && s.lease == Some(id)
    requires AdmitChange(s.durable, a.runId, a.request, a.payload).Some?
    ensures GlobalOk(Admitted(s, id, a.runId, a.request, a.payload))
  {
    hide GlobalOk;
    AdmitKeepsGlobal(s, id, a.runId, a.request, a.payload);
  }

  lemma AdmitEvolves(s: State, s1: State, id: ObserverId, a: Admission)
    requires a.Persisting? && PendingIntent(s, id, a) && s.lease == Some(id)
    requires AdmitChange(s.durable, a.runId, a.request, a.payload).Some?
    requires s1 == Admitted(s, id, a.runId, a.request, a.payload)
    ensures Evolves(s, s1, id)
  {
  }

  lemma IntentKeepsHolder(s: State, s1: State, id: ObserverId, a: Admission, ob: Observer)
    requires a.Persisting? && PendingIntent(s, id, a) && s.lease == Some(id)
    requires AdmitChange(s.durable, a.runId, a.request, a.payload).Some?
    requires s1 == Admitted(s, id, a.runId, a.request, a.payload)
    requires ObserverOk(s, id, ob) && ob.admission == Idle && ob.resuming == Attached
    requires a.request.Some? ==> a.request.value in ob.attempted
    ensures ObserverOk(s1, id, ob)
  {
    hide HolderOk, ExecutionOk, FinishedOk, TransferOk, PendingIntent;
    IntentKeepsPrivate(s, s1, id, a, ob);
    IntentKeepsHolding(s, s1, id, a, ob);
    hide AdmitChange, Admitted;
  }

  lemma IntentKeepsPrivate(s: State, s1: State, id: ObserverId, a: Admission, ob: Observer)
    requires a.Persisting? && AdmitChange(s.durable, a.runId, a.request, a.payload).Some?
    requires s1 == Admitted(s, id, a.runId, a.request, a.payload)
    requires ExecutionOk(s, id, ob) && FinishedOk(s, ob)
    ensures ExecutionOk(s1, id, ob) && FinishedOk(s1, ob)
  {
    hide AdmitChange;
  }

  lemma IntentKeepsHolding(s: State, s1: State, id: ObserverId, a: Admission, ob: Observer)
    requires a.Persisting? && PendingIntent(s, id, a) && s.lease == Some(id)
    requires AdmitChange(s.durable, a.runId, a.request, a.payload).Some?
    requires s1 == Admitted(s, id, a.runId, a.request, a.payload)
    requires HolderOk(s, id, ob) && ob.admission == Idle && ob.resuming == Attached
    requires a.request.Some? ==> a.request.value in ob.attempted
    ensures HolderOk(s1, id, ob)
  {
  }

  lemma FreshIntentPersisted(s: State, s1: State, id: ObserverId, a: Admission, ob: Observer)
    requires PendingIntent(s, id, a) && AdmitChange(s.durable, a.runId, a.request, a.payload).Some?
    requires s1 == Admitted(s, id, a.runId, a.request, a.payload)
    ensures AdmissionOk(s1, id, ob.(admission := Persisted(a.request, a.payload, a.runId)))
  {
  }

  // ---- Starting, or refusing to start ------------------------------------------------

  lemma StartKeeps(s: State, id: ObserverId, ob: Observer, refused: bool)
    requires Inv(s) && id in s.observers && s.observers[id] == ob
    requires ob.admission.Persisted? && ob.admission.runId in s.history
    ensures Inv(DoStart(s, id, ob, refused))
  {
    hide Inv, GlobalOk, ObserverOk, Evolves, NativeMove, HasOpen;
    InvAt(s, id);
    var a := ob.admission;
    PersistedFacts(s, id, ob);
    if refused || ob.closed || ob.detached || ob.local != Ready || ob.execution.Some? {
      NativeMoveKeepsGlobal(s, a.runId, Refused);
      RefusedOwn(s, id, ob);
      NativeMoveEvolves(s, id, a.runId, Refused);
      SharedStep(s, SetNative(s, a.runId, Refused), id, ob.(admission := Rejecting(a.request, a.payload, a.runId)));
    } else {
      NativeMoveKeepsGlobal(s, a.runId, Armed);
      OpeningKeepsGlobal(SetNative(s, a.runId, Armed), Window(a.runId, 0));
      ArmedEvolves(s, id, a.runId);
      ArmedOwn(s, id, ob);
      SharedStep(s, Opened(SetNative(s, a.runId, Armed), Window(a.runId, 0)), id, StartedObserver(ob));
    }
  }

  function Opened(s: State, w: Window): State {
    s.(streams := s.streams + [w])
  }

  lemma PersistedFacts(s: State, id: ObserverId, ob: Observer)
    requires ObserverOk(s, id, ob) && ob.admission.Persisted? && ob.admission.runId in s.history
    ensures var a := ob.admission;
            && Owns(s, id, a.runId, a.request, a.payload, Reserved) && HasOpen(s.durable, a.runId)
            && WindowUnused(s, id, Window(a.runId, 0))
            && NativeMove(s, a.runId, Refused) && NativeMove(s, a.runId, Armed)
  {
  }

  lemma NativeMoveEvolves(s: State, id: ObserverId, runId: RunId, native: NativeStatus)
    requires runId in s.history && NativeMove(s, runId, native) && s.history[runId].owner == id
    ensures Evolves(s, SetNative(s, runId, native), id)
  {
  }

  lemma ArmedEvolves(s: State, id: ObserverId, runId: RunId)
    requires runId in s.history && NativeMove(s, runId, Armed) && s.history[runId].owner == id
    requires WindowUnused(s, id, Window(runId, 0))
    ensures Evolves(s, Opened(SetNative(s, runId, Armed), Window(runId, 0)), id)
  {
  }

  lemma OpeningKeepsGlobal(s: State, w: Window)
    requires GlobalOk(s) && w in s.reserved && w !in s.streams
    ensures GlobalOk(Opened(s, w))
  {
    OpeningKeepsWindows(s, w);
    hide WindowsOk;
    OpeningKeepsRest(s, w);
  }

  lemma OpeningKeepsWindows(s: State, w: Window)
    requires WindowsOk(s) && w in s.reserved && w !in s.streams
    ensures WindowsOk(Opened(s, w))
  {
  }

  lemma OpeningKeepsRest(s: State, w: Window)
    requires LedgerOk(s) && RequestsOk(s) && CallsOk(s) && IdsOk(s)
    ensures var s' := Opened(s, w); LedgerOk(s') && RequestsOk(s') && CallsOk(s') && IdsOk(s')
  {
  }

  lemma RefusedOwn(s: State, id: ObserverId, ob: Observer)
    requires ObserverOk(s, id, ob) && ob.admission.Persisted? && ob.admission.runId in s.history
    ensures var a := ob.admission;
            ObserverOk(SetNative(s, a.runId, Refused), id, ob.(admission := Rejecting(a.request, a.payload, a.runId)))
  {
    var a := ob.admission;
    var s1 := SetNative(s, a.runId, Refused);
    assert AdmissionOk(s1, id, ob.(admission := Rejecting(a.request, a.payload, a.runId)));
    UnstartedRunMoves(s, s1, id, ob.(admission := Idle), a.runId, Refused);
    hide AdmissionOk;
    AdmissionMoves(s1, id, ob.(admission := Idle), Rejecting(a.request, a.payload, a.runId));
  }

  // An observer that is not busy admitting does not care about a run nobody started yet.
  lemma UnstartedRunMoves(s: State, s1: State, id: ObserverId, ob: Observer, runId: RunId, native: NativeStatus)
    requires ObserverOk(s, id, ob) && ob.admission == Idle
    requires runId in s.history && s.history[runId].native == Reserved
    requires s1 == SetNative(s, runId, native).(streams := s1.streams)
    requires ob.resuming.Adopting? ==> s1.streams == s.streams
    ensures ObserverOk(s1, id, ob)
  {
    hide HolderOk, TransferOk, HasOpen;
    UnstartedRunHeld(s, s1, id, ob);
  }

  lemma UnstartedRunHeld(s: State, s1: State, id: ObserverId, ob: Observer)
    requires HolderOk(s, id, ob) && s1 == s.(history := s1.history, streams := s1.streams)
    ensures HolderOk(s1, id, ob)
  {
  }

  lemma ArmedOwn(s: State, id: ObserverId, ob: Observer)
    requires ObserverOk(s, id, ob) && ob.admission.Persisted? && ob.admission.runId in s.history
    requires ob.local == Ready && ob.execution.None?
    requires HasOpen(s.durable, ob.admission.runId)
    ensures ObserverOk(Opened(SetNative(s, ob.admission.runId, Armed), Window(ob.admission.runId, 0)), id, StartedObserver(ob))
  {
    var a := ob.admission;
    var s1 := Opened(SetNative(s, a.runId, Armed), Window(a.runId, 0));
    PersistedFacts(s, id, ob);
    BusyIsAttached(s, id, ob);
    UnfinishedRun(s, id, ob);
    hide HasOpen;
    IdleOk(s, id, ob);
    UnstartedRunMoves(s, s1, id, ob.(admission := Idle), a.runId, Armed);
    hide ObserverOk;
    ExecutionBegins(s1, id, ob.(admission := Idle), Execution(a.runId, a.request, a.payload, false, Beginning));
    StartedAdmission(s1, id, ob, a.runId);
    AdmissionMoves(s1, id, StartedObserver(ob).(admission := Idle), Started(a.runId));
  }

  lemma IdleOk(s: State, id: ObserverId, ob: Observer)
    requires ObserverOk(s, id, ob)
    ensures ObserverOk(s, id, ob.(admission := Idle))
  {
  }

  lemma UnfinishedRun(s: State, id: ObserverId, ob: Observer)
    requires ObserverOk(s, id, ob) && ob.admission.Persisted?
    ensures ob.admission.runId !in ob.finished
  {
  }

  lemma StartedAdmission(s: State, id: ObserverId, ob: Observer, runId: RunId)
    requires runId in s.history && StartedLocally(s.history[runId].native)
    ensures AdmissionOk(s, id, ob.(admission := Started(runId)))
  {
  }

  // A local run starts in an observer that had none.
  lemma ExecutionBegins(s: State, id: ObserverId, ob: Observer, e: Execution)
    requires ObserverOk(s, id, ob) && ob.resuming == Attached && !ob.transfer && ob.admission == Idle
    requires e.runId in s.history && e.runId !in ob.finished && e.stage == Beginning
    requires s.history[e.runId].request == e.request && s.history[e.runId].payload == e.payload
    requires if e.adopted then Submitted(s.history[e.runId].native)
             else s.history[e.runId].owner == id && s.history[e.runId].native == Armed
    requires s.lease == Some(id) ==> HasOpen(s.durable, e.runId)
    ensures ObserverOk(s, id, ob.(local := Running, execution := Some(e)))
  {
  }

  // ---- The lease holder rewrites one record -------------------------------------------

  // `d` rewrites the record of `runId` only, keeping every other run and all request ids.
  ghost predicate Rewrites(s: State, d: Ledger, runId: RunId) {
    && d.runs.Keys == s.durable.runs.Keys
    && d.requests.Keys == s.durable.requests.Keys
    && (forall r :: r in d.runs && r != runId ==> d.runs[r] == s.durable.runs[r])
  }

  // Does the observer's own progress survive the record of `runId` being closed?
  ghost predicate DoneWith(s: State, d: Ledger, ob: Observer, runId: RunId) {
    && (ob.execution.Some? ==> ob.execution.value.runId != runId)
    && (ob.admission.Persisted? || ob.admission.Rejecting? ==> ob.admission.runId != runId)
    && (runId in ob.finished ==>
          runId in ob.decisions && ob.decisions[runId] == Keep && Kept(s.(durable := d), runId, ob.finished[runId].result))
    && ob.resuming == Attached
  }

  lemma ClosingOwn(s: State, d: Ledger, id: ObserverId, ob: Observer, runId: RunId)
    requires ObserverOk(s, id, ob) && Rewrites(s, d, runId) && DoneWith(s, d, ob, runId)
    ensures ObserverOk(s.(durable := d), id, ob)
  {
    var s1 := s.(durable := d);
    assert AdmissionOk(s1, id, ob);
    assert HolderOk(s1, id, ob) by {
      hide AdmissionOk, ExecutionOk;
      ClosingHolder(s, d, id, ob, runId);
    }
  }

  lemma ClosingHolder(s: State, d: Ledger, id: ObserverId, ob: Observer, runId: RunId)
    requires HolderOk(s, id, ob) && Rewrites(s, d, runId) && DoneWith(s, d, ob, runId)
    ensures HolderOk(s.(durable := d), id, ob)
  {
  }

  // Relabelling an open record leaves it open, so nobody is affected.
  lemma RelabelOwn(s: State, id: ObserverId, ob: Observer, runId: RunId, state: RunState)
    requires ObserverOk(s, id, ob) && HasOpen(s.durable, runId) && state in {Observing, Unknown} && ob.resuming == Attached
    ensures ObserverOk(s.(durable := SetState(s.durable, runId, state)), id, ob)
  {
    var s1 := s.(durable := SetState(s.durable, runId, state));
    assert forall r :: HasOpen(s.durable, r) <==> HasOpen(s1.durable, r);
    assert AdmissionOk(s1, id, ob);
    assert HolderOk(s1, id, ob) by {
      hide AdmissionOk, ExecutionOk;
    }
  }

  lemma WritingEvolves(s: State, d: Ledger, id: ObserverId, runId: RunId)
    requires s.lease == Some(id) && Rewrites(s, d, runId)
    requires HasOpen(s.durable, runId) && !HasOpen(d, runId) && runId in s.history ==>
               s.history[runId].native == Dead || (s.history[runId].native == Refused && s.history[runId].owner == id)
    ensures Evolves(s, s.(durable := d), id)
  {
  }

  lemma PersistRejectionKeeps(s: State, id: ObserverId, ob: Observer, outcome: Outcome)
    requires Inv(s) && id in s.observers && s.observers[id] == ob && ob.admission.Rejecting?
    ensures Inv(DoPersistRejection(s, id, ob, outcome))
  {
    hide Inv, GlobalOk, ObserverOk, Evolves, Update, RejectChange, Rewrites, DoneWith, HasOpen;
    InvAt(s, id);
    var a := ob.admission;
    var d := RejectChange(s.durable, a.runId, a.request, a.payload);
    var u := Update(s, id, ob.cache, Some(d), outcome);
    BusyIsAttached(s, id, ob);
    AdmissionMoves(s, id, ob, Idle);
    var ob1 := ob.(admission := Idle);
    if u.durable == s.durable {
      CacheMoves(s, id, ob1, u.cache);
      LocalStep(s, id, ob1.(cache := u.cache));
      assert s.(durable := u.durable) == s;
    } else {
      RejectionFacts(s, id, ob);
      RejectKeepsGlobal(s, id, a.runId, a.request, a.payload);
      WritingEvolves(s, d, id, a.runId);
      var s1 := s.(durable := d);
      WrittenCache(s, id, ob1, d, u, a.runId);
      SharedStep(s, s1, id, ob1.(cache := u.cache));
    }
  }

  lemma RejectionFacts(s: State, id: ObserverId, ob: Observer)
    requires GlobalOk(s) && ObserverOk(s, id, ob) && ob.admission.Rejecting?
    ensures var a := ob.admission; var d := RejectChange(s.durable, a.runId, a.request, a.payload);
            && Owns(s, id, a.runId, a.request, a.payload, Refused) && HasOpen(s.durable, a.runId)
            && Rewrites(s, d, a.runId) && DoneWith(s, d, ob.(admission := Idle), a.runId)
  {
    hide GlobalOk, ObserverOk, Rewrites, DoneWith, RejectChange;
    RejectingOwns(s, id, ob);
    RejectionRewrites(s, id, ob);
    RejectionIsDone(s, id, ob);
  }

  lemma RejectingOwns(s: State, id: ObserverId, ob: Observer)
    requires ObserverOk(s, id, ob) && ob.admission.Rejecting?
    ensures var a := ob.admission; Owns(s, id, a.runId, a.request, a.payload, Refused) && HasOpen(s.durable, a.runId)
  {
  }

  lemma RejectionRewrites(s: State, id: ObserverId, ob: Observer)
    requires GlobalOk(s) && ObserverOk(s, id, ob) && ob.admission.Rejecting?
    ensures var a := ob.admission; Rewrites(s, RejectChange(s.durable, a.runId, a.request, a.payload), a.runId)
  {
    hide GlobalOk, ObserverOk, Rewrites, RejectChange;
    RejectingOwns(s, id, ob);
    OwnRequestIsKnown(s, id, ob.admission);
    RejectingKnownRewrites(s.durable, s, ob.admission);
  }

  lemma OwnRequestIsKnown(s: State, id: ObserverId, a: Admission)
    requires GlobalOk(s) && a.Rejecting? && Owns(s, id, a.runId, a.request, a.payload, Refused) && HasOpen(s.durable, a.runId)
    ensures a.runId in s.durable.runs && (a.request.Some? ==> a.request.value in s.durable.requests)
  {
    hide LedgerOk, CallsOk, WindowsOk, IdsOk;
  }

  lemma RejectingKnownRewrites(l: Ledger, s: State, a: Admission)
    requires a.Rejecting? && l == s.durable && a.runId in l.runs && (a.request.Some? ==> a.request.value in l.requests)
    ensures Rewrites(s, RejectChange(l, a.runId, a.request, a.payload), a.runId)
  {
  }

  lemma RejectionIsDone(s: State, id: ObserverId, ob: Observer)
    requires ObserverOk(s, id, ob) && ob.admission.Rejecting?
    ensures var a := ob.admission;
            DoneWith(s, RejectChange(s.durable, a.runId, a.request, a.payload), ob.(admission := Idle), a.runId)
  {
    hide ObserverOk, RejectChange, Kept;
    RefusedIsUnfinished(s, id, ob);
  }

  // A run whose start was refused was never executed by its observer.
  lemma RefusedIsUnfinished(s: State, id: ObserverId, ob: Observer)
    requires ObserverOk(s, id, ob) && ob.admission.Rejecting?
    ensures ob.resuming == Attached && ob.admission.runId !in ob.finished
    ensures ob.execution.Some? ==> ob.execution.value.runId != ob.admission.runId
  {
    hide HolderOk, TransferOk;
  }

  // Closing a record together with the cache the update left behind.
  lemma WrittenCache(s: State, id: ObserverId, ob: Observer, d: Ledger, u: Applied<Ledger>, runId: RunId)
    requires ObserverOk(s, id, ob) && Rewrites(s, d, runId) && DoneWith(s, d, ob, runId)
    requires u.durable == d && (u.ok ==> u.cache == d) && (!u.ok ==> u.cache == ob.cache || u.cache == s.durable)
    ensures ObserverOk(s.(durable := d), id, ob.(cache := u.cache))
  {
    hide ObserverOk, Rewrites;
    if u.ok {
      ClosingOwn(s, d, id, ob, runId);
      CacheMoves(s.(durable := d), id, ob, d);
    } else {
      CacheMoves(s, id, ob, u.cache);
      assert DoneWith(s, d, ob.(cache := u.cache), runId);
      hide DoneWith;
      ClosingOwn(s, d, id, ob.(cache := u.cache), runId);
    }
  }

  // ---- Execution ---------------------------------------------------------------------

  lemma CallKeeps(s: State, id: ObserverId, ob: Observer)
    requires Inv(s) && id in s.observers && s.observers[id] == ob && EnabledFor(s, CallStep(id), ob)
    ensures Inv(DoCall(s, id, ob))
  {
    hide Inv, GlobalOk, ObserverOk, Evolves;
    InvAt(s, id);
    var e := ob.execution.value;
    var ob' := ob.(execution := Some(e.(stage := Called)));
    if e.adopted {
      AdoptedCallOwn(s, id, ob);
      LocalStep(s, id, ob');
    } else {
      ArmedExecution(s, id, ob);
      CallKeepsGlobal(s, e.runId);
      CallEvolves(s, id, e.runId);
      CallOwn(s, id, ob);
      SharedStep(s, WithCall(s, e.runId), id, ob');
    }
  }

  lemma AdoptedCallOwn(s: State, id: ObserverId, ob: Observer)
    requires ObserverOk(s, id, ob) && ob.execution.Some? && ob.execution.value.adopted
    ensures ObserverOk(s, id, ob.(execution := Some(ob.execution.value.(stage := Called))))
  {
  }

  lemma ArmedExecution(s: State, id: ObserverId, ob: Observer)
    requires ObserverOk(s, id, ob) && ob.execution.Some? && !ob.execution.value.adopted && ob.execution.value.stage == Beginning
    ensures var e := ob.execution.value;
            && e.runId in s.history && s.history[e.runId] == Origin(e.request, e.payload, id, Armed)
  {
  }

  lemma CallEvolves(s: State, id: ObserverId, runId: RunId)
    requires runId in s.history && s.history[runId].native == Armed && s.history[runId].owner == id
    ensures Evolves(s, WithCall(s, runId), id)
  {
  }

  lemma CallOwn(s: State, id: ObserverId, ob: Observer)
    requires ObserverOk(s, id, ob) && ob.execution.Some? && !ob.execution.value.adopted && ob.execution.value.stage == Beginning
    requires ob.execution.value.runId in s.history && s.history[ob.execution.value.runId].native == Armed
    ensures ObserverOk(WithCall(s, ob.execution.value.runId), id, ob.(execution := Some(ob.execution.value.(stage := Called))))
  {
  }

  lemma PersistAcceptedKeeps(s: State, id: ObserverId, ob: Observer, outcome: Outcome)
    requires Inv(s) && id in s.observers && s.observers[id] == ob && EnabledFor(s, PersistAcceptedStep(id, outcome), ob)
    ensures Inv(DoPersistAccepted(s, id, ob, outcome))
  {
    hide Inv, GlobalOk, ObserverOk, Evolves, Update, SetState, Rewrites, HasOpen;
    InvAt(s, id);
    var e := ob.execution.value;
    var d := AcceptChange(s.durable, e.runId);
    var u := Update(s, id, ob.cache, Some(d), outcome);
    var ob1 := ob.(execution := Some(e.(stage := Accepted)));
    AcceptedOwn(s, id, ob);
    if u.durable == s.durable {
      CacheMoves(s, id, ob1, u.cache);
      LocalStep(s, id, ob1.(cache := u.cache));
      assert s.(durable := u.durable) == s;
    } else {
      RelabelKeeps(s, id, ob1, e.runId, Observing, u);
    }
  }

  lemma AcceptedOwn(s: State, id: ObserverId, ob: Observer)
    requires ObserverOk(s, id, ob) && ob.execution.Some? && ob.execution.value.stage == Called
    ensures ObserverOk(s, id, ob.(execution := Some(ob.execution.value.(stage := Accepted))))
    ensures ob.resuming == Attached
    ensures s.lease == Some(id) ==> HasOpen(s.durable, ob.execution.value.runId)
  {
  }

  // The holder relabels an open record, and moves on with the cache it was left with.
  lemma RelabelKeeps(s: State, id: ObserverId, ob: Observer, runId: RunId, state: RunState, u: Applied<Ledger>)
    requires Inv(s) && id in s.observers && ObserverOk(s, id, ob) && ob.resuming == Attached && s.lease == Some(id)
    requires HasOpen(s.durable, runId) && state in {Observing, Unknown}
    requires u.durable == SetState(s.durable, runId, state)
    requires (u.ok ==> u.cache == u.durable) && (!u.ok ==> u.cache == ob.cache || u.cache == s.durable)
    ensures Inv(Put(s.(durable := u.durable), id, ob.(cache := u.cache)))
  {
    hide Inv, GlobalOk, ObserverOk, Evolves, Rewrites;
    InvAt(s, id);
    RelabelKeepsGlobal(s, runId, state);
    RelabelRewrites(s, runId, state);
    WritingEvolves(s, u.durable, id, runId);
    hide HasOpen, SetState;
    var s1 := s.(durable := u.durable);
    if u.ok {
      RelabelOwn(s, id, ob, runId, state);
      CacheMoves(s1, id, ob, u.cache);
    } else {
      CacheMoves(s, id, ob, u.cache);
      RelabelOwn(s, id, ob.(cache := u.cache), runId, state);
    }
    SharedStep(s, s1, id, ob.(cache := u.cache));
  }

  lemma RelabelRewrites(s: State, runId: RunId, state: RunState)
    requires HasOpen(s.durable, runId) && state in {Observing, Unknown}
    ensures Rewrites(s, SetState(s.durable, runId, state), runId) && HasOpen(SetState(s.durable, runId, state), runId)
  {
  }

  lemma NativeEndsKeeps(s: State, runId: RunId)
    requires Inv(s) && runId in s.history && s.history[runId].native == Live
    ensures Inv(SetNative(s, runId, Dead))
  {
    NextIsFree(s);
    hide GlobalOk, ObserverOk, Evolves;
    NativeMoveKeepsGlobal(s, runId, Dead);
    EndingEvolves(s, s.nextObserver, runId);
    Compose(s, SetNative(s, runId, Dead), s.nextObserver);
  }

  lemma NextIsFree(s: State)
    requires GlobalOk(s)
    ensures s.nextObserver !in s.observers
  {
  }

  lemma EndingEvolves(s: State, id: ObserverId, runId: RunId)
    requires runId in s.history && s.history[runId].native == Live
    ensures Evolves(s, SetNative(s, runId, Dead), id)
  {
  }

  lemma PersistOutcomeKeeps(s: State, id: ObserverId, ob: Observer, runId: RunId, outcome: Outcome, again: bool)
    requires Inv(s) && id in s.observers && s.observers[id] == ob
    requires runId in ob.writes && runId in ob.decisions && runId in ob.finished
    ensures Inv(DoPersistOutcome(s, id, ob, runId, outcome, again))
  {
    hide Inv, GlobalOk, ObserverOk, Evolves, Update, HasOpen, Kept, OutcomeChange, Settle, Put;
    InvAt(s, id);
    var u := Update(s, id, ob.cache, Some(OutcomeChange(s, ob, runId)), outcome);
    var ob1 := Settle(ob, runId, u.ok, again);
    SettleOwn(s, id, ob, runId, u.ok, again);
    if u.durable == s.durable {
      assert s.(durable := u.durable) == s;
      CacheMoves(s, id, ob1, u.cache);
      LocalStep(s, id, ob1.(cache := u.cache));
    } else {
      OutcomeFacts(s, id, ob, runId);
      if ob.decisions[runId] == Keep {
        ResultWritten(s, id, ob1, runId, u);
      } else {
        UnknownIsRelabel(s, ob, runId);
        RelabelKeeps(s, id, ob1, runId, Unknown, u);
      }
    }
  }

  lemma SettleOwn(s: State, id: ObserverId, ob: Observer, runId: RunId, ok: bool, again: bool)
    requires ObserverOk(s, id, ob)
    ensures var ob1 := Settle(ob, runId, ok, again);
            && ObserverOk(s, id, ob1) && ob1.cache == ob.cache && ob1.resuming == ob.resuming
            && ob1.decisions == ob.decisions && ob1.finished == ob.finished
            && (runId in ob.decisions && runId in ob.finished ==> OutcomeChange(s, ob1, runId) == OutcomeChange(s, ob, runId))
  {
    SettledWrites(s, ob, runId, ok, again);
    hide ObserverOk;
    BookkeepingMoves(s, id, ob, Settle(ob, runId, ok, again).writes, Settle(ob, runId, ok, again).pendingResults);
  }

  lemma SettledWrites(s: State, ob: Observer, runId: RunId, ok: bool, again: bool)
    requires FinishedOk(s, ob)
    ensures var ob1 := Settle(ob, runId, ok, again);
            && (forall r :: r in ob1.writes ==> r in ob.decisions)
            && (forall r :: r in ob1.pendingResults ==> r in ob.decisions && ob.decisions[r] == Keep)
  {
  }

  lemma ResultWritten(s: State, id: ObserverId, ob: Observer, runId: RunId, u: Applied<Ledger>)
    requires Inv(s) && id in s.observers && ObserverOk(s, id, ob) && s.lease == Some(id)
    requires runId in ob.decisions && runId in ob.finished && ob.decisions[runId] == Keep
    requires u.durable == OutcomeChange(s, ob, runId)
    requires (u.ok ==> u.cache == u.durable) && (!u.ok ==> u.cache == ob.cache || u.cache == s.durable)
    ensures Inv(Put(s.(durable := u.durable), id, ob.(cache := u.cache)))
  {
    hide Inv, GlobalOk, ObserverOk, Evolves, Rewrites, DoneWith, HasOpen, ResultChange, Kept;
    InvAt(s, id);
    var d := ResultChange(s.durable, runId, ob.finished[runId].result);
    ResultFacts(s, id, ob, runId);
    ResultKeepsGlobal(s, runId, ob.finished[runId].result);
    WritingEvolves(s, d, id, runId);
    WrittenCache(s, id, ob, d, u, runId);
    SharedStep(s, s.(durable := d), id, ob.(cache := u.cache));
  }

  lemma OutcomeFacts(s: State, id: ObserverId, ob: Observer, runId: RunId)
    requires ObserverOk(s, id, ob) && runId in ob.decisions && runId in ob.finished
    ensures ob.resuming == Attached
    ensures s.lease == Some(id) && ob.decisions[runId] == Unresolved ==> HasOpen(s.durable, runId)
  {
  }

  lemma ResultFacts(s: State, id: ObserverId, ob: Observer, runId: RunId)
    requires ObserverOk(s, id, ob) && runId in ob.decisions && runId in ob.finished && ob.decisions[runId] == Keep
    requires s.lease == Some(id)
    ensures Kept(s, runId, ob.finished[runId].result) && runId in s.history && s.history[runId].native == Dead
    ensures var d := ResultChange(s.durable, runId, ob.finished[runId].result);
            Rewrites(s, d, runId) && DoneWith(s, d, ob, runId)
  {
  }

  lemma UnknownIsRelabel(s: State, ob: Observer, runId: RunId)
    requires HasOpen(s.durable, runId) && runId in ob.decisions && runId in ob.finished && ob.decisions[runId] == Unresolved
    ensures OutcomeChange(s, ob, runId) == SetState(s.durable, runId, Unknown)
  {
  }

  // ---- Losing and regaining the session ----------------------------------------------

  lemma DropKeeps(s: State, s1: State, id: ObserverId)
    requires Inv(s) && id in s.observers && s1.observers == s.observers
    requires GlobalOk(s1) && Evolves(s, s1, id)
    ensures Inv(Drop(s1, id))
  {
    hide GlobalOk, ObserverOk, Evolves, Inv;
    InvAt(s, id);
    DropKeepsGlobal(s1, id);
    DropEvolves(s, s1, id);
    Compose(s, Drop(s1, id), id);
  }

  lemma DropEvolves(s: State, s1: State, id: ObserverId)
    requires Evolves(s, s1, id) && s1.observers == s.observers
    ensures Evolves(s, Drop(s1, id), id)
  {
    assert Drop(s1, id).observers - {id} == s.observers - {id};
  }

  lemma DropKeepsGlobal(s: State, id: ObserverId)
    requires GlobalOk(s)
    ensures GlobalOk(Drop(s, id)) && GlobalOk(s.(lease := None))
  {
    hide LedgerOk, RequestsOk, CallsOk, WindowsOk, IdsOk;
    DropKeepsRecords(s, Drop(s, id));
    DropKeepsRecords(s, s.(lease := None));
    DropKeepsIds(s, id);
  }

  lemma DropKeepsRecords(s: State, s': State)
    requires LedgerOk(s) && RequestsOk(s) && CallsOk(s) && WindowsOk(s)
    requires s' == s.(observers := s'.observers, lease := s'.lease)
    ensures LedgerOk(s') && RequestsOk(s') && CallsOk(s') && WindowsOk(s')
  {
  }

  lemma DropKeepsIds(s: State, id: ObserverId)
    requires IdsOk(s)
    ensures IdsOk(Drop(s, id)) && IdsOk(s.(lease := None))
  {
  }

  lemma LoseLeaseKeeps(s: State, id: ObserverId)
    requires Inv(s) && id in s.observers && s.lease == Some(id)
    ensures Inv(s.(lease := None))
  {
    hide GlobalOk, Evolves, ObserverOk;
    var s' := s.(lease := None);
    DropKeepsGlobal(s, id);
    LeaseEvolves(s, id);
    WithoutLease(s, id, s.observers[id]);
    Compose(s, s', id);
  }

  lemma LeaseEvolves(s: State, id: ObserverId)
    ensures Evolves(s, s.(lease := None), id)
  {
  }

  lemma WithoutLease(s: State, id: ObserverId, ob: Observer)
    requires ObserverOk(s, id, ob)
    ensures ObserverOk(s.(lease := None), id, ob)
  {
  }

  lemma ResumeKeeps(s: State)
    requires Inv(s) && s.lease == None
    ensures Inv(DoResume(s))
  {
    NextIsFree(s);
    hide GlobalOk, ObserverOk, Evolves;
    ResumeKeepsGlobal(s);
    ResumeOwn(s);
    ResumeEvolves(s);
    Compose(s, DoResume(s), s.nextObserver);
  }

  lemma ResumeOwn(s: State)
    ensures ObserverOk(DoResume(s), s.nextObserver, NewObserver(s.durable, Restoring))
  {
  }

  lemma ResumeEvolves(s: State)
    requires s.lease == None && s.nextObserver !in s.observers
    ensures Evolves(s, DoResume(s), s.nextObserver)
  {
    assert DoResume(s).observers - {s.nextObserver} == s.observers - {s.nextObserver};
  }

  lemma ResumeKeepsGlobal(s: State)
    requires GlobalOk(s)
    ensures GlobalOk(DoResume(s))
  {
  }

  lemma PersistWindowKeeps(s: State, id: ObserverId, ob: Observer, outcome: Outcome)
    requires Inv(s) && id in s.observers && s.observers[id] == ob && ob.resuming.Reserving?
    ensures Inv(DoPersistWindow(s, id, ob, outcome))
  {
    hide Inv, GlobalOk, ObserverOk, Evolves, Update, WindowChange, HasOpen, Rewrites;
    InvAt(s, id);
    var r := ob.resuming;
    var u := Update(s, id, ob.cache, WindowChange(s.durable, r.runId, r.previous), outcome);
    if u.durable == s.durable && !u.ok {
      NothingEvolves(s, id);
      DropKeeps(s, s, id);
      assert s.(durable := u.durable) == s;
    } else {
      ReservingFacts(s, id, ob);
      WindowKeepsGlobal(s, id, r.runId, r.previous);
      RaisedIs(s, r.runId, r.previous);
      if u.ok {
        var s1 := s.(durable := u.durable, reserved := s.reserved[Window(r.runId, r.previous) := id]);
        RaisingEvolves(s, s1, id, r.runId, r.previous);
        assert WindowGranted(s, s1, id, ob);
        AdoptingOwn(s, s1, id, ob, u.cache);
        SharedStep(s, s1, id, ob.(cache := u.cache, resuming := Adopting(r.runId, r.previous)));
      } else {
        var s1 := s.(durable := u.durable);
        RaisingEvolves(s, s1, id, r.runId, r.previous);
        DropKeeps(s, s1, id);
      }
    }
  }

  lemma NothingEvolves(s: State, id: ObserverId)
    ensures Evolves(s, s, id)
  {
  }

  lemma RaisedIs(s: State, runId: RunId, previous: nat)
    requires HasOpen(s.durable, runId)
    ensures runId in s.durable.runs && WindowChange(s.durable, runId, previous).Some?
    ensures Raised(s, runId, previous) == s.(durable := WindowChange(s.durable, runId, previous).value)
  {
  }

  lemma ReservingFacts(s: State, id: ObserverId, ob: Observer)
    requires ObserverOk(s, id, ob) && ob.resuming.Reserving? && s.lease == Some(id)
    ensures HasOpen(s.durable, ob.resuming.runId)
    ensures s.durable.runs[ob.resuming.runId].highWater == Some(ob.resuming.previous)
    ensures GlobalOk(s) && Window(ob.resuming.runId, ob.resuming.previous) !in s.reserved ==>
              Window(ob.resuming.runId, ob.resuming.previous) !in s.streams
  {
  }

  lemma RaisingEvolves(s: State, s1: State, id: ObserverId, runId: RunId, previous: nat)
    requires s.lease == Some(id) && HasOpen(s.durable, runId) && WindowChange(s.durable, runId, previous).Some?
    requires s1 == s.(durable := WindowChange(s.durable, runId, previous).value, reserved := s1.reserved)
    requires s1.reserved == s.reserved || (s1.reserved == s.reserved[Window(runId, previous) := id] && Window(runId, previous) !in s.reserved)
    ensures Evolves(s, s1, id)
  {
  }

  // After the window is durable, the observer holds a reservation nobody has used.
  ghost predicate WindowGranted(s: State, s1: State, id: ObserverId, ob: Observer) {
    && ob.resuming.Reserving? && s.lease == Some(id) && HasOpen(s.durable, ob.resuming.runId)
    && WindowChange(s.durable, ob.resuming.runId, ob.resuming.previous).Some?
    && s1 == s.(durable := WindowChange(s.durable, ob.resuming.runId, ob.resuming.previous).value,
                reserved := s.reserved[Window(ob.resuming.runId, ob.resuming.previous) := id])
    && Window(ob.resuming.runId, ob.resuming.previous) !in s.streams
  }

  function Adopter(ob: Observer, cache: Ledger): Observer
    requires ob.resuming.Reserving?
  {
    ob.(cache := cache, resuming := Adopting(ob.resuming.runId, ob.resuming.previous))
  }

  lemma AdoptingOwn(s: State, s1: State, id: ObserverId, ob: Observer, cache: Ledger)
    requires GlobalOk(s) && ObserverOk(s, id, ob)
    requires WindowGranted(s, s1, id, ob) && cache == s1.durable
    ensures ObserverOk(s1, id, Adopter(ob, cache))
  {
    hide GlobalOk, AdmissionOk, ExecutionOk, FinishedOk;
    AdoptingHolder(s, s1, id, ob, cache);
    AdoptingIdle(s, s1, id, ob, cache);
    hide HolderOk, WindowGranted;
  }

  lemma AdoptingHolder(s: State, s1: State, id: ObserverId, ob: Observer, cache: Ledger)
    requires HolderOk(s, id, ob) && ResumingOk(s, id, ob)
    requires WindowGranted(s, s1, id, ob) && cache == s1.durable
    ensures HolderOk(s1, id, Adopter(ob, cache))
  {
  }

  lemma AdoptingIdle(s: State, s1: State, id: ObserverId, ob: Observer, cache: Ledger)
    requires FinishedOk(s, ob) && ResumingOk(s, id, ob) && TransferOk(ob)
    requires WindowGranted(s, s1, id, ob)
    ensures var ob' := Adopter(ob, cache);
            && AdmissionOk(s1, id, ob') && ExecutionOk(s1, id, ob') && FinishedOk(s1, ob')
            && ResumingOk(s1, id, ob') && TransferOk(ob')
  {
  }

  lemma AdoptKeeps(s: State, id: ObserverId, ob: Observer, refused: bool)
    requires Inv(s) && id in s.observers && s.observers[id] == ob
    requires ob.resuming.Adopting? && ob.resuming.runId in s.history
    ensures Inv(DoAdopt(s, id, ob, refused))
  {
    hide Inv, GlobalOk, ObserverOk, Evolves;
    InvAt(s, id);
    if refused {
      NothingEvolves(s, id);
      DropKeeps(s, s, id);
    } else {
      var w := Window(ob.resuming.runId, ob.resuming.previous);
      var s1 := Opened(s, w);
      AdoptingFacts(s, id, ob);
      OpeningKeepsGlobal(s, w);
      OpeningEvolves(s, id, w);
      AdoptedOwn(s, id, ob);
      SharedStep(s, s1, id, AdoptedObserver(s, ob));
    }
  }

  lemma AdoptingFacts(s: State, id: ObserverId, ob: Observer)
    requires ObserverOk(s, id, ob) && ob.resuming.Adopting?
    ensures WindowUnused(s, id, Window(ob.resuming.runId, ob.resuming.previous))
  {
  }

  lemma OpeningEvolves(s: State, id: ObserverId, w: Window)
    requires WindowUnused(s, id, w)
    ensures Evolves(s, Opened(s, w), id)
  {
  }

  lemma AdoptedOwn(s: State, id: ObserverId, ob: Observer)
    requires ObserverOk(s, id, ob) && ob.resuming.Adopting? && ob.resuming.runId in s.history
    ensures ObserverOk(Opened(s, Window(ob.resuming.runId, ob.resuming.previous)), id, AdoptedObserver(s, ob))
  {
  }
}
