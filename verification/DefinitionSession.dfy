/**
  The session object itself: its fields, and the synchronous stretches of its methods, each
  doing to the object what one step of the protocol does to an observer.
 */
module DefinitionSessions {
  import opened Wrappers
  import opened DurableUpdate
  import opened SessionLedger
  import P = SessionProtocol

  class DefinitionSession {
    var detached: bool
    var transfer: bool
    var admission: P.Admission
    var closed: bool
    // What each request id of this session was used for.
    var requests: map<RequestId, Payload>
    // The runs handed out, and the results whose saving is not acknowledged.
    var runs: set<RunId>
    var pendingResults: map<RunId, RunResult>
    // The control record as this process last read it, and the state of the local session.
    var control: Ledger
    var local: P.LocalState
    // The local session's active run.
    var execution: Option<P.Execution>

    // The rest of the observer: what happens outside this object.
    ghost var resuming: P.Resuming
    ghost var detaching: bool
    ghost var attempted: set<RequestId>
    ghost var finished: map<RunId, P.Ending>
    ghost var decisions: map<RunId, P.Decision>
    ghost var writes: set<RunId>

    ghost function Observer(): P.Observer
      reads this
    {
      P.Observer(control, resuming, detaching, detached, closed, transfer, local, admission, requests, attempted,
                 execution, runs, finished, decisions, writes, pendingResults.Keys)
    }

    // The retained results are those the local runs ended with.
    ghost predicate Valid()
      reads this
    {
      forall r :: r in pendingResults ==> r in finished && finished[r].result == pendingResults[r]
    }

    constructor (control: Ledger, local: P.LocalState)
      requires local == P.Ready
      ensures Valid() && Observer() == P.NewObserver(control, P.Attached)
    {
      detached, transfer, admission, closed := false, false, P.Idle, false;
      requests, runs, pendingResults := map[], {}, map[];
      this.control, this.local := control, local;
      resuming, detaching, attempted, execution := P.Attached, false, {}, None;
      finished, decisions, writes := map[], map[], {};
    }

    // Reserves the one admission, unless the call is refused or repeats an earlier one. An
    // option the runtime does not know refuses the call whatever else holds.
    method Run(request: Option<RequestId>, payload: Payload, knownOptions: bool) returns (reply: P.RunReply)
      modifies this`admission, this`requests
      ensures reply == if knownOptions then P.RunReplyTo(old(Observer()), request, payload) else P.Refuse
      ensures Observer() == if knownOptions then P.Run(old(Observer()), request, payload) else old(Observer())
      // a used id gets the earlier promise exactly with the content it was used for
      ensures reply == P.SamePromise <==>
                && knownOptions && !transfer && !detached && !closed
                && request.Some? && !P.Blank(request.value)
                && request.value in old(requests) && old(requests)[request.value] == payload
      ensures reply == P.Admit <==>
                && knownOptions && !transfer && !detached && !closed
                && (request.Some? ==> !P.Blank(request.value) && request.value !in old(requests))
                && |old(requests)| < 1024 && old(admission) == P.Idle
      ensures request.Some? && request.value in old(requests) && old(requests)[request.value] != payload ==> reply == P.Refuse
      ensures reply != P.Admit ==> admission == old(admission) && requests == old(requests)
      ensures reply == P.Admit ==>
                && admission == P.Queued(request, payload)
                && requests == if request.Some? then old(requests)[request.value := payload] else old(requests)
    {
      if transfer {
        return P.Refuse;
      }
      if detached || closed {
        return P.Refuse;
      }
      if !knownOptions {
        return P.Refuse;
      }
      if request.Some? && P.Blank(request.value) {
        return P.Refuse;
      }
      if request.Some? && request.value in requests {
        return if requests[request.value] != payload then P.Refuse else P.SamePromise;
      }
      if |requests| >= MAX_REQUESTS {
        return P.Refuse;
      }
      if admission != P.Idle {
        return P.Refuse;
      }
      admission := P.Queued(request, payload);
      if request.Some? {
        requests := requests[request.value := payload];
      }
      return P.Admit;
    }

    // `admit` up to its first await.
    method BeginAdmit(aborted: bool)
      requires admission.Queued?
      modifies this`admission
      ensures Observer() == old(Observer()).(admission := P.BeginAdmit(old(Observer()), aborted))
      // a recorded request is looked up exactly with the content it was recorded with
      ensures admission.LookingUp? <==>
                && !closed && !detached && old(admission).request.Some? && old(admission).request.value in control.requests
                && control.requests[old(admission).request.value].digest == old(admission).payload
                && !control.requests[old(admission).request.value].rejected
      ensures admission.LookingUp? ==>
                && admission.request == old(admission).request && admission.payload == old(admission).payload
                && admission.runId == control.requests[old(admission).request.value].runId
      // and only one that is not recorded goes on
      ensures admission.Inspecting? <==>
                && !closed && !detached && !aborted
                && !(old(admission).request.Some? && old(admission).request.value in control.requests)
      ensures admission.Inspecting? ==> admission.request == old(admission).request && admission.payload == old(admission).payload
      ensures admission.LookingUp? || admission.Inspecting? || admission == P.Idle
    {
      if closed || detached {
        admission := P.Idle;
        return;
      }
      var request, payload := admission.request, admission.payload;
      if request.Some? && request.value in control.requests {
        var saved := control.requests[request.value];
        if saved.digest != payload {
          admission := P.Idle;
          return;
        }
        if saved.rejected {
          admission := P.Idle;
          return;
        }
        admission := P.LookingUp(request, payload, saved.runId);
        return;
      }
      if aborted {
        admission := P.Idle;
        return;
      }
      admission := P.Inspecting(request, payload);
    }

    // After the inspection: no new input while a recorded one is active.
    method Inspected(stop: bool, runId: RunId)
      requires admission.Inspecting?
      modifies this`admission
      ensures forall s: P.State, id: P.ObserverId ::
                Observer() == P.DoInspected(s, id, old(Observer()), stop, runId).observers[id]
      ensures admission == if stop || control.active.Some? then P.Idle
                           else P.Persisting(old(admission).request, old(admission).payload, runId)
    {
      if stop || control.active.Some? {
        admission := P.Idle;
        return;
      }
      admission := P.Persisting(admission.request, admission.payload, runId);
    }

    // What the update recording an intent reports, and leaves as the cached record.
    static function IntentUpdate(s: P.State, id: P.ObserverId, cache: Ledger, a: P.Admission, outcome: Outcome): (bool, Ledger)
      requires a.Persisting?
    {
      var u := P.Update(s, id, cache, AdmitChange(s.durable, a.runId, a.request, a.payload), outcome);
      (u.ok, u.cache)
    }

    // The update recording the intent settles, and leaves `cache` as the cached record.
    method IntentSettles(ok: bool, cache: Ledger)
      requires admission.Persisting?
      modifies this`admission, this`control, this`attempted
      ensures forall s: P.State, id: P.ObserverId, outcome: Outcome ::
                IntentUpdate(s, id, old(control), old(admission), outcome) == (ok, cache) ==>
                  Observer() == P.DoPersistIntent(s, id, old(Observer()), outcome).observers[id]
      ensures control == cache
      ensures admission == if ok then P.Persisted(old(admission).request, old(admission).payload, old(admission).runId) else P.Idle
    {
      var request, payload, runId := admission.request, admission.payload, admission.runId;
      control := cache;
      attempted := if request.Some? then attempted + {request.value} else attempted;
      admission := if ok then P.Persisted(request, payload, runId) else P.Idle;
    }

    // The start of the local run, up to its first await.
    method Start(refused: bool) returns (ok: bool)
      requires admission.Persisted?
      modifies this`admission, this`local, this`execution
      ensures ok <==> !refused && !closed && !detached && old(local) == P.Ready && old(execution).None?
      ensures forall s: P.State, id: P.ObserverId :: old(admission).runId in s.history ==>
                Observer() == P.DoStart(s, id, old(Observer()), refused).observers[id]
      ensures var request, payload, runId := old(admission).request, old(admission).payload, old(admission).runId;
              if ok then
                && admission == P.Started(runId) && local == P.Running
                && execution == Some(P.Execution(runId, request, payload, false, P.Beginning))
              else admission == P.Rejecting(request, payload, runId) && local == old(local) && execution == old(execution)
    {
      var request, payload, runId := admission.request, admission.payload, admission.runId;
      if refused || closed || detached || local != P.Ready || execution.Some? {
        admission := P.Rejecting(request, payload, runId);
        return false;
      }
      admission := P.Started(runId);
      local := P.Running;
      execution := Some(P.Execution(runId, request, payload, false, P.Beginning));
      return true;
    }

    // The finish callback of the local run.
    method LocalRunEnds(ending: P.Ending)
      requires Valid() && execution.Some? && execution.value.runId !in finished
      modifies this`local, this`execution, this`finished
      ensures Valid() && Observer() == P.Finish(old(Observer()), ending)
      ensures execution == None && finished == old(finished)[old(execution).value.runId := ending]
      ensures local == if old(local) == P.Destroyed then P.Destroyed else if ending.confirmed then P.Ready else P.Failed
    {
      finished := finished[execution.value.runId := ending];
      execution := None;
      if local != P.Destroyed {
        local := if ending.confirmed then P.Ready else P.Failed;
      }
    }

    // The admission's promise settles; a started run is tracked first.
    method AdmissionReturns()
      requires admission.Started? || admission.LookingUp?
      modifies this`admission, this`runs
      ensures Observer() == P.AdmissionReturns(old(Observer()))
      ensures admission == P.Idle
      ensures runs == if old(admission).Started? then old(runs) + {old(admission).runId} else old(runs)
    {
      if admission.Started? {
        runs := runs + {admission.runId};
      }
      admission := P.Idle;
    }

    // The continuation on a local result: keep it for saving, or call the run unknown.
    method ResultArrives(runId: RunId, confirmed: bool, value: RunResult) returns (decision: P.Decision)
      requires Valid() && runId in finished && finished[runId] == P.Ending(confirmed, value)
      modifies this`pendingResults, this`decisions, this`writes
      ensures Valid() && Observer() == P.Decide(old(Observer()), runId)
      ensures decision == P.DecisionFor(old(Observer()), runId)
      // kept exactly if confirmed, by a session that did not fail and is still attached
      ensures decision == P.Keep <==> local != P.Failed && confirmed && !detached
      ensures pendingResults == if decision == P.Keep then old(pendingResults)[runId := value] else old(pendingResults)
      ensures writes == if detached then old(writes) else old(writes) + {runId}
    {
      if local == P.Failed || !confirmed || detached {
        decision := P.Unresolved;
        if !detached {
          writes := writes + {runId};
        }
      } else {
        decision := P.Keep;
        pendingResults := pendingResults[runId := value];
        writes := writes + {runId};
      }
      decisions := decisions[runId := decision];
    }

    // A save was acknowledged: the result need not be kept here any longer.
    method Acknowledge(runId: RunId, ok: bool, ghost again: bool)
      modifies this`pendingResults, this`writes
      ensures old(Valid()) ==> Valid()
      ensures Observer() == P.Settle(old(Observer()), runId, ok, again)
      ensures pendingResults == if ok then old(pendingResults) - {runId} else old(pendingResults)
    {
      if ok {
        pendingResults := pendingResults - {runId};
      }
      writes := if again then writes else writes - {runId};
    }

    // A retained result is saved again and then answered; the caller does the saving.
    method GetRun(runId: RunId) returns (reply: P.RunLookup)
      requires Valid()
      ensures reply == P.LookUp(Observer(), runId)
      ensures reply.Repair? <==> runId in pendingResults
      ensures reply.Repair? ==> reply.result == pendingResults[runId]
      ensures reply == P.Handle <==> runId !in pendingResults && runId in runs
      ensures reply.Saved? <==>
                && runId !in pendingResults && runId !in runs
                && runId in control.runs && control.runs[runId].state == Terminal && control.runs[runId].result.Some?
      ensures reply.Saved? ==> Some(reply.result) == control.runs[runId].result
      ensures reply == P.Unavailable <==> runId !in pendingResults && runId !in runs && runId !in control.runs
    {
      if runId in pendingResults {
        return P.Repair(pendingResults[runId]);
      }
      if runId in runs {
        return P.Handle;
      }
      if runId !in control.runs {
        return P.Unavailable;
      }
      var saved := control.runs[runId];
      if saved.state == Terminal && saved.result.Some? {
        return P.Saved(saved.result.value);
      }
      return P.NeedsRecovery;
    }

    // `assertTransfer` and the start of a transfer.
    method BeginTransfer(files: bool) returns (ok: bool)
      modifies this`transfer
      ensures ok <==> files && P.TransferAllowed(old(Observer()))
      ensures ok <==>
                && files && !detached && !closed
                && admission == P.Idle && !old(transfer) && local == P.Ready && control.active.None?
      ensures transfer == (old(transfer) || ok)
      ensures Observer() == if ok then old(Observer()).(transfer := true) else old(Observer())
    {
      if detached || closed || !files {
        return false;
      }
      if admission != P.Idle || transfer || local != P.Ready || control.active.Some? {
        return false;
      }
      transfer := true;
      return true;
    }

    method EndTransfer()
      modifies this`transfer
      ensures Observer() == old(Observer()).(transfer := false)
    {
      transfer := false;
    }

    // `detach` up to its first await. The flag itself is set only by `CommitDetach`.
    method BeginDetach(canDetach: bool) returns (ok: bool)
      modifies this`detaching
      ensures ok <==> canDetach && P.DetachAllowed(old(Observer()))
      ensures ok <==> canDetach && !detached && admission == P.Idle && !transfer
      ensures Observer() == if ok then old(Observer()).(detaching := true) else old(Observer())
    {
      if detached {
        return false;
      }
      if admission != P.Idle || transfer {
        return false;
      }
      if !canDetach {
        return false;
      }
      detaching := true;
      return true;
    }

    method CommitDetach()
      modifies this`detached
      ensures Observer() == old(Observer()).(detached := true)
    {
      detached := true;
    }

    method Destroy()
      modifies this`closed
      ensures Observer() == P.Closing(old(Observer()))
      ensures closed <==> old(closed) || !detached
    {
      if closed || detached {
        return;
      }
      closed := true;
    }
  }
}
