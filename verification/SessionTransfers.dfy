/**
  File transfers of a session against everything else its observers do. Within one observer
  transfers exclude input (`SessionSafety.TransfersAreExclusive`). Across observers they do as
  long as the transferring one holds the lease; a detach already in flight when the transfer
  begins is exactly what can take the lease away from it.
 */
module SessionTransfers {
  import opened Wrappers
  import opened DurableUpdate
  import opened SessionLedger
  import opened SessionProtocol
  import opened SessionInvariants
  import opened SessionSafety
  import opened SessionOutcomes
  import opened SessionScenarios

  // ---- Runs that may come to native execution ----------------------------------------

  ghost predicate AwaitsStart(s: State, r: RunId) {
    exists id :: IsReady(s, id, r)
  }

  // Observer `id` may start run `r` with its next step.
  predicate IsReady(s: State, id: ObserverId, r: RunId) {
    id in s.observers && s.observers[id].admission.Persisted? && s.observers[id].admission.runId == r
  }

  // The run is started, executing, or about to be started.
  ghost predicate Effective(s: State, r: RunId) {
    (r in s.history && s.history[r].native in {Armed, Live}) || AwaitsStart(s, r)
  }

  lemma EffectiveIsActive(s: State, r: RunId)
    requires Inv(s) && Effective(s, r)
    ensures s.durable.active == Some(r)
  {
    hide Inv, GlobalOk, ObserverOk, HasOpen;
    if r in s.history && s.history[r].native in {Armed, Live} {
      InvGlobal(s);
      ArmedIsActive(s, r);
    } else {
      var id :| IsReady(s, id, r);
      InvAt(s, id);
      ReadyIsOpen(s, id, s.observers[id]);
      OpenIsActive(s, r);
    }
  }

  lemma InvGlobal(s: State)
    requires Inv(s)
    ensures GlobalOk(s)
  {
    hide GlobalOk, ObserverOk;
  }

  lemma ReadyIsOpen(s: State, id: ObserverId, ob: Observer)
    requires ObserverOk(s, id, ob) && ob.admission.Persisted?
    ensures HasOpen(s.durable, ob.admission.runId)
  {
    hide ExecutionOk, FinishedOk, ResumingOk, TransferOk, HolderOk;
  }

  lemma OpenIsActive(s: State, r: RunId)
    requires GlobalOk(s) && HasOpen(s.durable, r)
    ensures s.durable.active == Some(r)
  {
    hide RequestsOk, CallsOk, WindowsOk, IdsOk;
  }

  // ---- How steps make runs effective -------------------------------------------------

  // The holder's intent became durable, and is in its cache.
  predicate IntentLands(s: State, step: Step, s': State) {
    && step.PersistIntentStep? && s.lease == Some(step.id)
    && step.id in s.observers && s.observers[step.id].admission.Persisting?
    && step.id in s'.observers && s'.observers[step.id].cache == s'.durable
  }

  lemma OnlyIntentsMakeEffective(s: State, step: Step, r: RunId)
    requires Inv(s) && Enabled(s, step) && Effective(s, r) == false && Effective(Next(s, step), r)
    ensures IntentLands(s, step, Next(s, step))
  {
    hide Inv, Next, Enabled, IntentLands, HistoryMoves, IsReady;
    var s' := Next(s, step);
    StepMovesHistory(s, step);
    if r in s'.history && s'.history[r].native in {Armed, Live} {
      ArmedOnlyWhenReady(s, step, r);
      assert false;
    } else {
      var id :| IsReady(s', id, r);
      assert !IsReady(s, id, r);
      ReadyOnlyByIntent(s, step, id, r);
    }
  }

  lemma ArmedOnlyWhenReady(s: State, step: Step, r: RunId)
    requires Inv(s) && Enabled(s, step) && HistoryMoves(s, Next(s, step))
    requires r in Next(s, step).history && Next(s, step).history[r].native in {Armed, Live}
    ensures Effective(s, r)
  {
    hide Inv, Next, Enabled, AwaitsStart;
    if r in s.history && s.history[r].native !in {Armed, Live} {
      ReservedMovesByStart(s, step, r);
      assert AwaitsStart(s, r) by {
        ReadyAwaits(s, step.id, r);
      }
    } else if r !in s.history {
      NewRunsAreReserved(s, step, r);
      assert false;
    }
  }

  lemma ReadyAwaits(s: State, id: ObserverId, r: RunId)
    requires IsReady(s, id, r)
    ensures AwaitsStart(s, r)
  {
  }

  lemma NewRunsAreReserved(s: State, step: Step, r: RunId)
    requires Enabled(s, step) && r !in s.history && r in Next(s, step).history
    ensures Next(s, step).history[r].native == Reserved
  {
    hide Enabled, Next, IsLocal, HistoryMoves;
    if step.StartStep? || step.CallStep? || step.InspectedStep? || step.NativeEndsStep? {
      HistoryStepAdds(s, step, r);
    } else {
      HistoryUntouched(s, step);
    }
  }

  lemma HistoryUntouched(s: State, step: Step)
    requires Enabled(s, step) && !step.StartStep? && !step.CallStep? && !step.InspectedStep? && !step.NativeEndsStep?
    ensures Next(s, step).history == s.history
  {
    hide Enabled, Next, IsLocal;
    if IsLocal(step) {
      LocalStepsOnlyMoveObservers(s, step);
    } else {
      WritesLeaveHistory(s, step);
    }
  }

  lemma HistoryStepAdds(s: State, step: Step, r: RunId)
    requires step.StartStep? || step.CallStep? || step.InspectedStep? || step.NativeEndsStep?
    requires Enabled(s, step) && r !in s.history && r in Next(s, step).history
    ensures Next(s, step).history[r].native == Reserved
  {
    hide StartedObserver;
  }

  // A run that is not started yet is started only by its own observer, from a ready admission.
  lemma ReservedMovesByStart(s: State, step: Step, r: RunId)
    requires Inv(s) && Enabled(s, step) && HistoryMoves(s, Next(s, step))
    requires r in s.history && s.history[r].native !in {Armed, Live}
    requires r in Next(s, step).history && Next(s, step).history[r].native in {Armed, Live}
    ensures step.StartStep? && IsReady(s, step.id, r)
  {
    hide Inv, Enabled, Next, IsLocal;
    assert s.history[r].native == Reserved && Next(s, step).history[r].native == Armed;
    if step.StartStep? || step.CallStep? || step.InspectedStep? || step.NativeEndsStep? {
      HistoryStepArms(s, step, r);
    } else {
      HistoryUntouched(s, step);
      assert false;
    }
  }

  lemma HistoryStepArms(s: State, step: Step, r: RunId)
    requires step.StartStep? || step.CallStep? || step.InspectedStep? || step.NativeEndsStep?
    requires Enabled(s, step) && r in s.history && s.history[r].native == Reserved
    requires r in Next(s, step).history && Next(s, step).history[r].native == Armed
    ensures step.StartStep? && IsReady(s, step.id, r)
  {
    hide StartedObserver;
  }

  lemma ReadyOnlyByIntent(s: State, step: Step, id: ObserverId, r: RunId)
    requires Inv(s) && Enabled(s, step) && IsReady(Next(s, step), id, r) && !IsReady(s, id, r)
    ensures IntentLands(s, step, Next(s, step))
  {
    hide Inv, EnabledFor, NextFor, Moved, MovesOne, CacheMovesOn, IntentLands;
    if step.ResumeStep? {
      ResumedIsNotReady(s, id, r);
      assert false;
    } else if !step.NativeEndsStep? {
      EveryStepMovesOne(s, step, s.observers[step.id]);
      if step.id == id {
        OwnReadiness(s, step, r, Next(s, step));
      } else {
        OthersStay(s, step, Next(s, step), step.id, id);
      }
    }
  }

  lemma ResumedIsNotReady(s: State, id: ObserverId, r: RunId)
    requires IsReady(DoResume(s), id, r)
    ensures IsReady(s, id, r)
  {
  }

  lemma OwnReadiness(s: State, step: Step, r: RunId, s': State)
    requires !step.ResumeStep? && !step.NativeEndsStep? && step.id in s.observers
    requires MovesOne(s, step, step.id, s.observers[step.id], s') && IsReady(s', step.id, r) && !IsReady(s, step.id, r)
    ensures IntentLands(s, step, s')
  {
  }

  // ---- The lease holder --------------------------------------------------------------

  // The holder's cached record names every effective run as active.
  ghost predicate HolderSees(s: State) {
    s.lease.Some? ==>
      s.lease.value in s.observers && forall r: RunId :: Effective(s, r) ==> s.observers[s.lease.value].cache.active == Some(r)
  }

  // While the holder transfers a file, nothing is executing or about to.
  ghost predicate HolderQuiet(s: State) {
    s.lease.Some? && s.lease.value in s.observers && s.observers[s.lease.value].transfer ==> forall r: RunId :: !Effective(s, r)
  }

  // The lease stays where it is, is given up, or goes to a new observer with the durable record.
  ghost predicate HolderMoves(s: State, step: Step, s': State) {
    s'.lease.Some? ==>
      && s'.lease.value in s'.observers
      && var ob' := s'.observers[s'.lease.value];
         if step.ResumeStep? then ob'.cache == s.durable == s'.durable && !ob'.transfer
         else
           && s.lease == s'.lease && s.lease.value in s.observers
           && ob'.cache in {s.observers[s.lease.value].cache, s.durable, s'.durable}
           && (ob'.transfer ==> s.observers[s.lease.value].transfer || (step.BeginTransferStep? && step.id == s.lease.value && TransferAllowed(s.observers[s.lease.value])))
  }

  lemma StepMovesHolder(s: State, step: Step)
    requires Inv(s) && Enabled(s, step)
    ensures HolderMoves(s, step, Next(s, step))
  {
    hide Inv, GlobalOk, ObserverOk, EnabledFor, NextFor, MovesOne, HolderMoves;
    InvGlobal(s);
    HolderExists(s);
    if step.ResumeStep? {
      ResumeMovesHolder(s);
    } else if step.NativeEndsStep? {
      SameHolder(s, step, Next(s, step));
    } else {
      EveryStepMovesOne(s, step, s.observers[step.id]);
      if s.lease == Some(step.id) {
        if step.id in Next(s, step).observers {
          OwnTransferFlag(s, step);
        }
        HolderItselfMoves(s, step, Next(s, step));
      } else {
        OtherThanHolderMoves(s, step, Next(s, step));
      }
    }
  }

  lemma HolderExists(s: State)
    requires GlobalOk(s)
    ensures s.lease.Some? ==> s.lease.value in s.observers
  {
  }

  lemma ResumeMovesHolder(s: State)
    ensures HolderMoves(s, ResumeStep, DoResume(s))
  {
  }

  lemma SameHolder(s: State, step: Step, s': State)
    requires !step.ResumeStep? && s'.observers == s.observers && s'.lease == s.lease
    requires s.lease.Some? ==> s.lease.value in s.observers
    ensures HolderMoves(s, step, s')
  {
  }

  lemma OwnTransferFlag(s: State, step: Step)
    requires !step.ResumeStep? && !step.NativeEndsStep?
    requires Enabled(s, step) && step.id in s.observers && step.id in Next(s, step).observers
    requires MovesOne(s, step, step.id, s.observers[step.id], Next(s, step))
    ensures Next(s, step).observers[step.id].transfer ==>
              s.observers[step.id].transfer || (step.BeginTransferStep? && TransferAllowed(s.observers[step.id]))
  {
    hide Enabled, Next, TransferAllowed, MovesOne, Moved;
    OwnMove(s, step, Next(s, step));
    if IsFlagStep(step) {
      FlagStepIs(s, step);
      FlaggedTransfer(s, step, s.observers[step.id]);
    } else {
      UnflaggedTransfer(step, s.observers[step.id], Next(s, step).observers[step.id]);
    }
  }

  lemma UnflaggedTransfer(step: Step, ob: Observer, ob': Observer)
    requires Moved(step, ob, ob') && !IsFlagStep(step)
    ensures SameFlags(ob, ob')
  {
  }

  lemma FlaggedTransfer(s: State, step: Step, ob: Observer)
    requires IsFlagStep(step)
    ensures Put(s, step.id, Flagged(step, ob)).observers[step.id] == Flagged(step, ob)
    ensures Flagged(step, ob).transfer ==> ob.transfer || (step.BeginTransferStep? && TransferAllowed(ob))
  {
    hide TransferAllowed, DetachAllowed;
  }

  lemma HolderItselfMoves(s: State, step: Step, s': State)
    requires !step.ResumeStep? && !step.NativeEndsStep? && step.id in s.observers && s.lease == Some(step.id)
    requires MovesOne(s, step, step.id, s.observers[step.id], s')
    requires step.id in s'.observers && s'.observers[step.id].transfer ==>
               s.observers[step.id].transfer || (step.BeginTransferStep? && TransferAllowed(s.observers[step.id]))
    ensures HolderMoves(s, step, s')
  {
    hide Moved, TransferAllowed;
  }

  lemma OtherThanHolderMoves(s: State, step: Step, s': State)
    requires !step.ResumeStep? && !step.NativeEndsStep? && step.id in s.observers && s.lease != Some(step.id)
    requires s.lease.Some? ==> s.lease.value in s.observers
    requires MovesOne(s, step, step.id, s.observers[step.id], s')
    ensures HolderMoves(s, step, s')
  {
    hide Moved, TransferAllowed, CacheMovesOn;
    if s.lease.Some? {
      assert s.lease.value in s.observers - {step.id};
      assert (s'.observers - {step.id})[s.lease.value] == (s.observers - {step.id})[s.lease.value];
    }
  }

  lemma StepKeepsHolderSees(s: State, step: Step)
    requires Inv(s) && HolderSees(s) && Enabled(s, step) && Inv(Next(s, step))
    ensures HolderSees(Next(s, step))
  {
    hide Inv, Enabled, Next, Effective, HolderMoves, HolderSees, IntentLands;
    StepMovesHolder(s, step);
    var s' := Next(s, step);
    HolderIsThere(s, step, s');
    forall r: RunId | s'.lease.Some? && Effective(s', r) ensures s'.observers[s'.lease.value].cache.active == Some(r) {
      EffectiveIsActive(s', r);
      if Effective(s, r) {
        EffectiveIsActive(s, r);
        SeenBefore(s, step, s', r);
      } else {
        OnlyIntentsMakeEffective(s, step, r);
        SeenByIntent(s, step, s', r);
      }
    }
    SeesEach(s');
  }

  lemma HolderIsThere(s: State, step: Step, s': State)
    requires HolderMoves(s, step, s')
    ensures s'.lease.Some? ==> s'.lease.value in s'.observers
  {
    hide TransferAllowed;
  }

  lemma SeesEach(s: State)
    requires s.lease.Some? ==> s.lease.value in s.observers
    requires s.lease.Some? ==> forall r: RunId :: Effective(s, r) ==> s.observers[s.lease.value].cache.active == Some(r)
    ensures HolderSees(s)
  {
    hide Effective;
  }

  lemma SeenBefore(s: State, step: Step, s': State, r: RunId)
    requires HolderMoves(s, step, s') && HolderSees(s) && s'.lease.Some? && Effective(s, r)
    requires s.durable.active == Some(r) && s'.durable.active == Some(r)
    ensures s'.lease.value in s'.observers && s'.observers[s'.lease.value].cache.active == Some(r)
  {
    hide Effective, TransferAllowed;
  }

  lemma SeenByIntent(s: State, step: Step, s': State, r: RunId)
    requires HolderMoves(s, step, s') && IntentLands(s, step, s') && s'.lease.Some?
    requires s'.durable.active == Some(r)
    ensures s'.lease.value in s'.observers && s'.observers[s'.lease.value].cache.active == Some(r)
  {
    hide TransferAllowed;
  }

  lemma StepKeepsHolderQuiet(s: State, step: Step)
    requires Inv(s) && HolderSees(s) && HolderQuiet(s) && Enabled(s, step)
    ensures HolderQuiet(Next(s, step))
  {
    hide Inv, Enabled, Next, Effective, HolderMoves, HolderSees, HolderQuiet, IntentLands;
    StepMovesHolder(s, step);
    var s' := Next(s, step);
    forall r: RunId | s'.lease.Some? && s'.lease.value in s'.observers && s'.observers[s'.lease.value].transfer
      ensures !Effective(s', r)
    {
      QuietBefore(s, step, s', r);
      if Effective(s', r) {
        OnlyIntentsMakeEffective(s, step, r);
        NoIntentWhileTransferring(s, step, s');
        assert false;
      }
    }
    QuietEach(s');
  }

  lemma QuietEach(s: State)
    requires s.lease.Some? && s.lease.value in s.observers && s.observers[s.lease.value].transfer ==> forall r: RunId :: !Effective(s, r)
    ensures HolderQuiet(s)
  {
    hide Effective;
  }

  lemma QuietBefore(s: State, step: Step, s': State, r: RunId)
    requires HolderMoves(s, step, s') && HolderSees(s) && HolderQuiet(s)
    requires s'.lease.Some? && s'.lease.value in s'.observers && s'.observers[s'.lease.value].transfer
    ensures !Effective(s, r)
  {
    hide Effective;
  }

  lemma NoIntentWhileTransferring(s: State, step: Step, s': State)
    requires Inv(s) && HolderMoves(s, step, s') && s'.lease.Some? && s'.lease.value in s'.observers && s'.observers[s'.lease.value].transfer
    ensures !IntentLands(s, step, s')
  {
    hide Inv, TransferAllowed;
    if IntentLands(s, step, s') {
      InvAt(s, step.id);
      hide GlobalOk, ObserverOk;
      TransferringIsIdle(s, step.id, s.observers[step.id]);
      assert false;
    }
  }

  lemma TransferringIsIdle(s: State, id: ObserverId, ob: Observer)
    requires ObserverOk(s, id, ob) && ob.transfer
    ensures ob.admission == Idle
  {
  }

  lemma {:induction false} EveryHolderSees(states: seq<State>, steps: seq<Step>, i: nat)
    requires Behavior(states, steps) && i < |states|
    ensures HolderSees(states[i]) && HolderQuiet(states[i])
  {
    hide Inv, Enabled, Next, HolderSees, HolderQuiet, Init;
    if i == 0 {
      InitHolder();
    } else {
      EveryHolderSees(states, steps, i - 1);
      EveryStateKeepsInv(states, steps, i - 1);
      EveryStateKeepsInv(states, steps, i);
      StepKeepsHolderSees(states[i - 1], steps[i - 1]);
      StepKeepsHolderQuiet(states[i - 1], steps[i - 1]);
    }
  }

  lemma InitHolder()
    ensures HolderSees(Init()) && HolderQuiet(Init())
  {
  }

  // Whatever the observers do: while the lease holder transfers a file, no run of the session is
  // started or executing, and none is about to be started by any observer.
  lemma HolderTransfersAlone(states: seq<State>, steps: seq<Step>, i: nat, id: ObserverId)
    requires Behavior(states, steps) && i < |states| && states[i].lease == Some(id)
    requires id in states[i].observers && states[i].observers[id].transfer
    ensures forall r: RunId :: !Effective(states[i], r)
  {
    hide Behavior, Effective;
    EveryHolderSees(states, steps, i);
  }

  // ---- Keeping the lease -------------------------------------------------------------

  // A session gives its lease up itself: after detaching, or when destroyed, which first waits
  // for the transfer.
  predicate OwnRelease(ob: Observer) {
    ob.detached || (ob.closed && !ob.transfer)
  }

  predicate ReleasesOwn(s: State, step: Step) {
    step.LoseLeaseStep? && step.id in s.observers ==> OwnRelease(s.observers[step.id])
  }

  // No lease is ever taken away from outside.
  ghost predicate OwnReleases(states: seq<State>, steps: seq<Step>) {
    |states| == |steps| + 1 && forall i :: 0 <= i < |steps| ==> ReleasesOwn(states[i], steps[i])
  }

  // What a caller can check: no detach is in flight when a transfer of `id` begins.
  predicate BeginsClear(s: State, step: Step, id: ObserverId) {
    step == BeginTransferStep(id) && id in s.observers ==> !s.observers[id].detaching
  }

  ghost predicate TransfersBeginClear(states: seq<State>, steps: seq<Step>, id: ObserverId) {
    |states| == |steps| + 1 && forall i :: 0 <= i < |steps| ==> BeginsClear(states[i], steps[i], id)
  }

  // Whoever did not leave holds the lease.
  ghost predicate AttachedHold(s: State) {
    forall id :: id in s.observers && !Left(s.observers[id]) ==> s.lease == Some(id)
  }

  predicate TransferHolds(s: State, id: ObserverId) {
    id in s.observers && s.observers[id].transfer ==>
      s.lease == Some(id) && !s.observers[id].detaching && !s.observers[id].detached
  }

  lemma StepKeepsLeases(s: State, step: Step, id: ObserverId)
    requires Inv(s) && Enabled(s, step) && ReleasesOwn(s, step) && AttachedHold(s)
    ensures AttachedHold(Next(s, step))
    ensures TransferHolds(s, id) && BeginsClear(s, step, id) ==> TransferHolds(Next(s, step), id)
  {
    hide Inv, EnabledFor, NextFor, MovesOne, AttachedHold, TransferHolds, ReleasesOwn, BeginsClear;
    if step.ResumeStep? {
      ResumeKeepsLeases(s, id);
    } else if step.NativeEndsStep? {
      SameLeases(s, Next(s, step), id);
    } else {
      EveryStepMovesOne(s, step, s.observers[step.id]);
      if IsFlagStep(step) {
        FlagStepIs(s, step);
        FlagStepsKeepLeases(s, step, id);
      } else {
        OthersKeepLeases(s, step, Next(s, step), id);
      }
    }
  }

  lemma ResumeKeepsLeases(s: State, id: ObserverId)
    requires s.lease == None && AttachedHold(s)
    ensures AttachedHold(DoResume(s)) && (TransferHolds(s, id) ==> TransferHolds(DoResume(s), id))
  {
  }

  lemma SameLeases(s: State, s': State, id: ObserverId)
    requires s'.observers == s.observers && s'.lease == s.lease && AttachedHold(s)
    ensures AttachedHold(s') && (TransferHolds(s, id) ==> TransferHolds(s', id))
  {
  }

  lemma FlagStepsKeepLeases(s: State, step: Step, id: ObserverId)
    requires IsFlagStep(step) && step.id in s.observers && AttachedHold(s)
    requires EnabledFor(s, step, s.observers[step.id])
    ensures var s' := Put(s, step.id, Flagged(step, s.observers[step.id]));
            AttachedHold(s') && (TransferHolds(s, id) && BeginsClear(s, step, id) ==> TransferHolds(s', id))
  {
    hide EnabledFor, Flagged;
    FlagsStayHonest(s, step, s.observers[step.id]);
  }

  lemma FlagsStayHonest(s: State, step: Step, ob: Observer)
    requires IsFlagStep(step)
    requires EnabledFor(s, step, ob)
    ensures var ob' := Flagged(step, ob);
            && (Left(ob) ==> Left(ob'))
            && (ob'.transfer ==> !ob'.detaching || ob.detaching)
            && (ob'.transfer && !ob.transfer ==> step.BeginTransferStep? && !Left(ob) && ob'.detaching == ob.detaching && ob'.detached == ob.detached)
            && (ob.transfer && ob'.transfer && !ob.detaching ==> !ob'.detaching && ob'.detached == ob.detached)
  {
  }

  lemma OthersKeepLeases(s: State, step: Step, s': State, id: ObserverId)
    requires !step.ResumeStep? && !step.NativeEndsStep? && !IsFlagStep(step) && step.id in s.observers
    requires MovesOne(s, step, step.id, s.observers[step.id], s') && ReleasesOwn(s, step) && AttachedHold(s)
    ensures AttachedHold(s') && (TransferHolds(s, id) ==> TransferHolds(s', id))
  {
    FlagsUntouched(s, step, s');
    hide MovesOne;
  }

  // A step other than of flags: everybody's flags stay, and the lease stays or is given up.
  lemma FlagsUntouched(s: State, step: Step, s': State)
    requires !step.ResumeStep? && !step.NativeEndsStep? && !IsFlagStep(step) && step.id in s.observers
    requires MovesOne(s, step, step.id, s.observers[step.id], s')
    ensures forall o :: o in s'.observers ==> o in s.observers && SameFlags(s.observers[o], s'.observers[o])
    ensures s'.lease == s.lease || (s.lease == Some(step.id) && s'.lease == None && (step.LoseLeaseStep? || step.id !in s'.observers))
  {
    hide SameFlags;
    forall o | o in s'.observers ensures o in s.observers && SameFlags(s.observers[o], s'.observers[o]) {
      if o == step.id {
        OwnMove(s, step, s');
        UnflaggedTransfer(step, s.observers[o], s'.observers[o]);
      } else {
        OthersStay(s, step, s', step.id, o);
        SameAsItself(s.observers[o]);
      }
    }
  }

  lemma SameAsItself(ob: Observer)
    ensures SameFlags(ob, ob)
  {
  }

  lemma {:induction false} LeasesAreKept(states: seq<State>, steps: seq<Step>, i: nat, id: ObserverId)
    requires Behavior(states, steps) && OwnReleases(states, steps) && i < |states|
    ensures AttachedHold(states[i])
    ensures TransfersBeginClear(states, steps, id) ==> TransferHolds(states[i], id)
  {
    hide Inv, Enabled, Next, AttachedHold, TransferHolds, ReleasesOwn, BeginsClear, Init;
    if i == 0 {
      InitHolds(id);
    } else {
      LeasesAreKept(states, steps, i - 1, id);
      EveryStateKeepsInv(states, steps, i - 1);
      StepKeepsLeases(states[i - 1], steps[i - 1], id);
    }
  }

  lemma InitHolds(id: ObserverId)
    ensures AttachedHold(Init()) && TransferHolds(Init(), id)
  {
  }

  // ---- Main results ------------------------------------------------------------------

  // A session whose transfers never begin with a detach in flight, and whose lease is not taken
  // away from outside: a transferring observer holds the lease, nothing of the session is
  // executing or about to, and no other such observer transfers.
  lemma ClearTransfersAreExclusive(states: seq<State>, steps: seq<Step>, i: nat, a: ObserverId, b: ObserverId)
    requires Behavior(states, steps) && OwnReleases(states, steps) && i < |states|
    requires TransfersBeginClear(states, steps, a) && TransfersBeginClear(states, steps, b)
    requires a in states[i].observers && states[i].observers[a].transfer
    ensures states[i].lease == Some(a) && forall r: RunId :: !Effective(states[i], r)
    ensures b in states[i].observers && states[i].observers[b].transfer ==> b == a
  {
    hide Behavior, OwnReleases, TransfersBeginClear, Effective;
    LeasesAreKept(states, steps, i, a);
    LeasesAreKept(states, steps, i, b);
    HolderTransfersAlone(states, steps, i, a);
  }

  // Observer `a` transfers while another observer, the holder of the lease, takes input.
  predicate Overlap(s: State, a: ObserverId, b: ObserverId) {
    && a != b && a in s.observers && b in s.observers
    && s.observers[a].transfer && s.lease == Some(b) && s.observers[b].admission.Queued?
  }

  lemma ClearTransfersDoNotOverlap(states: seq<State>, steps: seq<Step>, i: nat, a: ObserverId, b: ObserverId)
    requires Behavior(states, steps) && OwnReleases(states, steps) && i < |states| && TransfersBeginClear(states, steps, a)
    ensures !Overlap(states[i], a, b)
  {
    hide Behavior, OwnReleases, TransfersBeginClear;
    LeasesAreKept(states, steps, i, a);
  }

  // The condition is exact. From every reachable state in which a transfer may begin at an
  // observer with a detach in flight, beginning it can overlap with input at another observer,
  // without any lease being taken away.
  lemma DetachInFlightOverlaps(states: seq<State>, steps: seq<Step>, s: State, a: ObserverId)
    returns (states': seq<State>, steps': seq<Step>, s': State)
    requires Reaches(states, steps, s) && a in s.observers && s.lease == Some(a)
    requires TransferAllowed(s.observers[a]) && s.observers[a].detaching && s.observers[a].resuming == Attached
    ensures Reaches(states', steps', s')
    ensures steps' == steps + [BeginTransferStep(a), CommitDetachStep(a), LoseLeaseStep(a), ResumeStep,
                               RestoredStep(s.nextObserver, false), RunStep(s.nextObserver, None, "input")]
    ensures OwnRelease(Detached(s, a).observers[a]) && Overlap(s', a, s.nextObserver)
  {
    NextIsNew(states, steps, s, a);
    hide Reaches, Successor, Overlap, Transferring, Detached, Released, Resumed, Restarted, WithInput, TransferAllowed;
    TransferBegins(s, a, Transferring(s, a));
    states', steps' := Extend(states, steps, s, BeginTransferStep(a), Transferring(s, a));
    DetachCommits(s, a, Transferring(s, a), Detached(s, a));
    states', steps' := Extend(states', steps', Transferring(s, a), CommitDetachStep(a), Detached(s, a));
    LeaseIsReleased(s, a, Detached(s, a), Released(s, a));
    states', steps' := Extend(states', steps', Detached(s, a), LoseLeaseStep(a), Released(s, a));
    SessionResumes(s, a, Released(s, a), Resumed(s, a));
    states', steps' := Extend(states', steps', Released(s, a), ResumeStep, Resumed(s, a));
    NothingRestored(s, a, Resumed(s, a), Restarted(s, a));
    states', steps' := Extend(states', steps', Resumed(s, a), RestoredStep(s.nextObserver, false), Restarted(s, a));
    InputArrives(s, a, Restarted(s, a), WithInput(s, a));
    states', steps' := Extend(states', steps', Restarted(s, a), RunStep(s.nextObserver, None, "input"), WithInput(s, a));
    s' := WithInput(s, a);
    InputOverlaps(s, a);
    SixSteps(steps, a, s.nextObserver);
  }

  lemma SixSteps(steps: seq<Step>, a: ObserverId, b: ObserverId)
    ensures steps + [BeginTransferStep(a)] + [CommitDetachStep(a)] + [LoseLeaseStep(a)] + [ResumeStep]
            + [RestoredStep(b, false)] + [RunStep(b, None, "input")]
         == steps + [BeginTransferStep(a), CommitDetachStep(a), LoseLeaseStep(a), ResumeStep, RestoredStep(b, false), RunStep(b, None, "input")]
  {
  }

  lemma NextIsNew(states: seq<State>, steps: seq<Step>, s: State, a: ObserverId)
    requires Reaches(states, steps, s) && a in s.observers
    ensures a < s.nextObserver && s.nextObserver !in s.observers
  {
    hide Reaches, Inv, GlobalOk, ObserverOk;
    ReachedKeepsInv(states, steps, s);
    InvAt(s, a);
    NewIdsAreFree(s);
  }

  lemma ReachedKeepsInv(states: seq<State>, steps: seq<Step>, s: State)
    requires Reaches(states, steps, s)
    ensures Inv(s)
  {
    hide Inv, Enabled, Next, Init;
    EveryStateKeepsInv(states, steps, |steps|);
  }

  lemma NewIdsAreFree(s: State)
    requires GlobalOk(s)
    ensures s.nextObserver !in s.observers
  {
    hide LedgerOk, RequestsOk, CallsOk, WindowsOk;
  }

  // The states on the way.
  function Transferring(s: State, a: ObserverId): State
    requires a in s.observers
  {
    Put(s, a, s.observers[a].(transfer := true))
  }

  function Detached(s: State, a: ObserverId): State
    requires a in s.observers
  {
    Put(s, a, s.observers[a].(transfer := true, detached := true))
  }

  function Released(s: State, a: ObserverId): State
    requires a in s.observers
  {
    Detached(s, a).(lease := None)
  }

  function Resumed(s: State, a: ObserverId): State
    requires a in s.observers
  {
    DoResume(Released(s, a))
  }

  function Restarted(s: State, a: ObserverId): State
    requires a in s.observers
  {
    Put(Resumed(s, a), s.nextObserver, Restored(NewObserver(s.durable, Restoring), false))
  }

  function WithInput(s: State, a: ObserverId): State
    requires a in s.observers
  {
    Put(Restarted(s, a), s.nextObserver, Run(Restored(NewObserver(s.durable, Restoring), false), None, "input"))
  }

  lemma TransferBegins(s: State, a: ObserverId, s1: State)
    requires a in s.observers && s1 == Transferring(s, a)
    requires TransferAllowed(s.observers[a]) && s.observers[a].resuming == Attached
    ensures Successor(s, BeginTransferStep(a)).Some? && Successor(s, BeginTransferStep(a)).value == s1
  {
  }

  lemma DetachCommits(s: State, a: ObserverId, s1: State, s2: State)
    requires a in s.observers && s.observers[a].detaching && s1 == Transferring(s, a) && s2 == Detached(s, a)
    ensures Successor(s1, CommitDetachStep(a)).Some? && Successor(s1, CommitDetachStep(a)).value == s2
  {
  }

  lemma LeaseIsReleased(s: State, a: ObserverId, s2: State, s3: State)
    requires a in s.observers && s.lease == Some(a) && s2 == Detached(s, a) && s3 == Released(s, a)
    ensures Successor(s2, LoseLeaseStep(a)).Some? && Successor(s2, LoseLeaseStep(a)).value == s3
    ensures a in s2.observers && OwnRelease(s2.observers[a])
  {
  }

  lemma SessionResumes(s: State, a: ObserverId, s3: State, s4: State)
    requires a in s.observers && s3 == Released(s, a) && s4 == Resumed(s, a)
    ensures Successor(s3, ResumeStep).Some? && Successor(s3, ResumeStep).value == s4
  {
  }

  lemma NothingRestored(s: State, a: ObserverId, s4: State, s5: State)
    requires a in s.observers && s4 == Resumed(s, a) && s5 == Restarted(s, a)
    ensures Successor(s4, RestoredStep(s.nextObserver, false)).Some? && Successor(s4, RestoredStep(s.nextObserver, false)).value == s5
  {
    hide Restored;
  }

  lemma InputArrives(s: State, a: ObserverId, s5: State, s6: State)
    requires a in s.observers && s5 == Restarted(s, a) && s6 == WithInput(s, a)
    ensures Successor(s5, RunStep(s.nextObserver, None, "input")).Some? && Successor(s5, RunStep(s.nextObserver, None, "input")).value == s6
  {
    hide Run;
  }

  lemma InputOverlaps(s: State, a: ObserverId)
    requires a in s.observers && a < s.nextObserver
    ensures Overlap(WithInput(s, a), a, s.nextObserver)
  {
    assert NewObserver(s.durable, Restoring).known == map[];
  }

  // It is reachable: a new session detaches, and a transfer begins before the detach commits.
  lemma OverlapIsReachable() returns (states: seq<State>, steps: seq<Step>, s: State)
    ensures Reaches(states, steps, s) && Overlap(s, 0, 1)
    ensures |steps| == 7 && steps[0] == BeginDetachStep(0) && steps[1] == BeginTransferStep(0)
  {
    hide Reaches, Successor, Overlap;
    InitReaches();
    DetachBegins(Init(), Detaching());
    states, steps := Extend([Init()], [], Init(), BeginDetachStep(0), Detaching());
    states, steps, s := DetachInFlightOverlaps(states, steps, Detaching(), 0);
  }

  function Detaching(): State {
    Init().(observers := map[0 := NewObserver(EmptyLedger(), Attached).(detaching := true)])
  }

  lemma DetachBegins(s: State, s': State)
    requires s == Init() && s' == Detaching()
    ensures Successor(s, BeginDetachStep(0)).Some? && Successor(s, BeginDetachStep(0)).value == s'
  {
  }
}
