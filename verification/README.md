# Agent runtime kernel and principal access: a verified model

A Dafny model of two independent parts of the repository, with proofs of what they promise:

1. **The agent-runtime execution kernel.** The bounded event journal of a run and its
   subscribers, the session's replay history, the durable request ledger with its
   write-ahead protocol and recovery, the life of one run and the workspace leases it holds,
   managed observation buffers, file transfers, and the byte bounds put on text and artifacts.
2. **The principal-based access kit.** Projecting owner, group, world and ACL to sorted
   principal arrays, deciding from those arrays, and rewriting tokens when entities merge.

`dafny verify dfyconfig.toml` checks the whole project.

## How it is built

| file | module | models |
|---|---|---|
| `Journal.dfy` | `Journal` | events, retention, eviction order and cursor replay, as values |
| `Subscriptions.dfy` | `Subscriptions` | one subscriber as a value, and its runs |
| `AsyncEventHub.dfy` | `EventHub` | the hub and its subscribers as classes; the ghost field `emitted` is the whole log |
| `SessionHistory.dfy` | `SessionHistory` | `retainHub`: which finished runs can still be replayed |
| `DurableUpdate.dfy`, `RuntimeControl.dfy` | `DurableUpdate`, `RuntimeControls` | one atomic update with its three outcomes, and the control writer that refines it |
| `SessionLedger.dfy` | `SessionLedger` | the durable record and the body of every `control.update` |
| `SessionProtocol.dfy` | `SessionProtocol` | the write-ahead protocol as a transition system |
| `DefinitionSession.dfy` | `DefinitionSessions` | the session object: each synchronous stretch of its methods is one protocol step |
| `SessionInvariants.dfy`, `SessionSteps.dfy`, `SessionSafety.dfy` | same names | the inductive invariant, its preservation step by step, and safety over whole behaviours |
| `SessionOutcomes.dfy`, `SessionScenarios.dfy` | same names | what becomes of runs, results, handles and observers, and two reachable states worth knowing |
| `SessionRequests.dfy` | `SessionRequests` | what request ids mean to one observer and on record, and what every write records |
| `SessionTransfers.dfy` | `SessionTransfers` | file transfers against all observers of a session, and exactly when they exclude input |
| `RunExecution.dfy` | `RunExecution` | `executeRun` and the finish callback, and workspace leases over many runs |
| `BoundedArtifacts.dfy`, `Utf8.dfy` | same names | byte bounds on artifacts and on text |
| `ManagedEventBuffer.dfy` | `ManagedEventBuffers` | pump and consumer over one queue |
| `PosixPaths.dfy`, `FileTransfers.dfy` | same names | transfer paths and the bounded read loops |
| `CanonicalOrder.dfy`, `Principals.dfy` | same names | string order, principal arrays, decisions and merging |

A transition system is used where the code interleaves at `await`: a step is one synchronous
stretch, one settled storage update, or something the environment does (a storage fault, a lost
lease, a crash, a native run ending, a timeout). Everything else has the form the code has:
classes whose methods change fields where the code does, loops where it loops, functions where
it computes. The link between the two transition systems is the guard of `FinishStep`: an
observer may report confirmed termination only for a run that was called and is over, which is
what `RunExecution.ConfirmedMeansOver` proves, for definition mode, of the code that confirms.
Subscribers are objects; every method of the hub says what it does to each as a function on the
value `Subscriptions.Reader`, and the theorems over whole runs are about those functions.

## What the proofs show about the code

These are facts about the code as it stands, each with a proof below.

- Publication stays inside the reserved window of sequence numbers; compaction's own
  `EVENTS_DROPPED` diagnostics do not, and they are the only events that may pass it. Exactly
  the publications that do not fit the journal emit one or more of them
  (`EventHub.AsyncEventHub.Publish`).
- The journal keeps its budget except for a single diagnostic larger than the whole budget
  (`EventHub.AsyncEventHub.TrimToBudget`).
- A failed control write is never mistaken for someone else's: under an exclusive lease the
  error for an unrecognised write cannot occur (`RuntimeControls.RuntimeControl.Update`).
- Transfers exclude input across a session's observers exactly when none begins with a detach in
  flight: `detach` checks for a transfer before its awaits and a transfer does not look for a
  detach, so the lease can pass on under a transfer (`SessionTransfers.DetachInFlightOverlaps`).
- A cursor can be accepted although the event it asks for next was dropped; the replay then
  contains the current diagnostic (`Journal.AcceptedGapIsShown`, `Journal.AcceptedGapExample`).
- A run whose start was rejected is answered by `getRun` with the error that asks for recovery,
  although it was never given to the driver (`SessionOutcomes.GetRunIsTruthful`, reachable by
  `SessionScenarios.RejectedRunAsksForRecovery`).
- Once a save failed and was repaired, `getRun` keeps answering with the handle given out first,
  although the result is recorded (`SessionScenarios.HandleOutlivesRepair`).
- In definition mode a collected result keeps the driver's status even if the run had been
  aborted, except that a completed one is incomplete when something was dropped; outside it an
  abort decides the status (`RunExecution.CollectedStatus`).
- A run with confirmed termination publishes no `run.finished` when its window of sequence
  numbers is used up (`RunExecution.UnconfirmedIsIncomplete`).
- The prefix test on a transfer's directory decides nothing under any root except `/`, where it
  refuses every path of more than one segment (`FileTransfers.PrefixTestDecides`).
- A falsy value thrown by a managed stream ends the consumer normally, with everything delivered
  (`ManagedEventBuffers.EndsAfterDraining`).
- Truncation loses one real U+FFFD when the cut falls exactly behind it
  (`Utf8.TruncationIsLongestPrefix`).
- The principal arrays and the older owner/group/world check disagree in exactly one family of
  records without an ACL: a group member, not the owner, denied by the group level and allowed
  by the world level (`Principals.LegacyAgreement`).

## Model

| member | source | states |
|---|---|---|
| `EventHub.AsyncEventHub.Create` | src/agent-runtime/AsyncEventHub.ts:24-39 | a hub exists exactly for a journal budget of at least 1024 and a positive subscriber budget, with the budgets, first number and window end asked for and an empty log |
| `EventHub.AsyncEventHub.Publish` | src/agent-runtime/AsyncEventHub.ts:45-61 | fails exactly after completion or at the end of the sequence window, and then changes nothing; otherwise logs the event with the next number, and everything else it logs is a diagnostic; emits diagnostics exactly when the journal would exceed its budget; gives up events in the documented order; offers every subscriber exactly what was logged and does nothing else to it |
| `EventHub.AsyncEventHub.Append` | src/agent-runtime/AsyncEventHub.ts:129-132 | the byte count stays the sum of the retained sizes |
| `EventHub.AsyncEventHub.PushToSubscribers` | src/agent-runtime/AsyncEventHub.ts:134-147 | every subscriber overflows exactly if it had or the event does not fit beside its own queue, and otherwise has the event last in its queue; what it received and replays stays |
| `EventHub.AsyncEventHub.CompactJournal` | src/agent-runtime/AsyncEventHub.ts:149-157 | terminates; ends within budget, with the one diagnostic carrying the current totals; emits only diagnostics, and some exactly when over budget; subscribers are offered just those |
| `EventHub.AsyncEventHub.TrimToBudget` | src/agent-runtime/AsyncEventHub.ts:159-178 | gives up exactly as many events as the budget needs, in eviction order, and counts each; only a lone diagnostic may stay over budget |
| `EventHub.AsyncEventHub.ReplaceTruncationDiagnostic` | src/agent-runtime/AsyncEventHub.ts:180-203 | the old diagnostic gives way to one with the current totals and the next number, no payload is lost, and subscribers are offered that diagnostic and nothing else |
| `EventHub.AsyncEventHub.WithdrawDiagnostic` | src/agent-runtime/AsyncEventHub.ts:181-187 | removes the current diagnostic, if retained, and its bytes |
| `EventHub.AsyncEventHub.Complete` | src/agent-runtime/AsyncEventHub.ts:63-67 | completion wakes every sleeping subscriber and disturbs no queue |
| `EventHub.AsyncEventHub.Expire` | src/agent-runtime/AsyncEventHub.ts:69-73 | expiry empties the journal and keeps the hub valid |
| `EventHub.AsyncEventHub.Open` | src/agent-runtime/AsyncEventHub.ts:75-99 | refuses exactly the expired hub, negative cursors, cursors ahead of the log and cursors from before the oldest retained event; otherwise the replay is exactly what is retained from behind the cursor, in order, and complete or with the current diagnostic |
| `EventHub.AsyncEventHub.Next` | src/agent-runtime/AsyncEventHub.ts:100-121 | yields the oldest waiting event; with none waiting reports the overflow of a subscriber that overflowed, the end of a completed run, or waits; all of it after the snapshot and a gap-free run of the log were delivered |
| `EventHub.AsyncEventHub.Close` | src/agent-runtime/AsyncEventHub.ts:122-124 | a consumer that stops early leaves, and nobody else notices |
| `EventHub.Subscriber.constructor` | src/agent-runtime/AsyncEventHub.ts:92-99 | a new subscriber follows the log from its snapshot on |
| `EventHub.Subscriber.Resume` | src/agent-runtime/AsyncEventHub.ts:101-121 | one resumption: snapshot first, then queue, then overflow or end; sleeps only when there is nothing to report |
| `EventHub.Subscriber.Offer` | src/agent-runtime/AsyncEventHub.ts:136-145 | one subscriber's turn: it overflows for good exactly if the event does not fit beside its queue, otherwise the event is queued last; it is woken either way |
| `EventHub.Subscriber.Wake` | src/agent-runtime/AsyncEventHub.ts:66 | after completion no subscriber stays asleep |
| `Subscriptions.DeliveryIsExact` | src/agent-runtime/AsyncEventHub.ts:92-147 | over any run of publications, resumptions and completion, what a subscriber received only grows, strictly ordered and without repetition; with what is waiting it is the snapshot and a gap-free run of the log, all of it unless it overflowed |
| `Subscriptions.OverflowIsJustified` | src/agent-runtime/AsyncEventHub.ts:134-147 | over any run, a publication ends a reader's stream exactly if the event does not fit beside its queue, otherwise the event is queued last; nothing else sets or takes back an overflow |
| `Subscriptions.OverflowsExactly` | src/agent-runtime/AsyncEventHub.ts:134-157 | a whole publication, diagnostics included, overflows a reader exactly if it had or the events do not all fit beside its queue; otherwise all are queued |
| `Subscriptions.PullExactly` | src/agent-runtime/AsyncEventHub.ts:101-121 | a resumption delivers the oldest waiting event; with none it reports the overflow, the end, or waits |
| `Subscriptions.DrainsInBoundedTurns` | src/agent-runtime/AsyncEventHub.ts:100-121 | one resumption per waiting event delivers everything, and the next says how the stream stands |
| `Subscriptions.EndsAreHonest` | src/agent-runtime/AsyncEventHub.ts:101-121 | over any run, overflow is reported exactly by a drained reader that overflowed, the end exactly by a drained one that did not, of a completed run; both only after everything accepted was delivered; overflow is for good, and a sleeping subscriber has nothing to report |
| `Subscriptions.ReadersNeverGoBack` | src/agent-runtime/AsyncEventHub.ts:101-147 | no step takes back a delivery, an acceptance or an overflow |
| `Subscriptions.OfferedFollows` | src/agent-runtime/AsyncEventHub.ts:134-147 | an offered event keeps the subscriber on the log, whether taken or refused |
| `Subscriptions.PulledFollows` | src/agent-runtime/AsyncEventHub.ts:101-121 | a resumption keeps it there too, and it sleeps only without news |
| `Subscriptions.DeliveryIsStrictlyOrdered` | src/agent-runtime/AsyncEventHub.ts:101-107 | whatever is received from a snapshot and a run of the log is strictly increasing and drawn from the log |
| `Journal.EmittingKeepsConsistent` | src/agent-runtime/AsyncEventHub.ts:45-61 | publishing keeps conservation, order and the report on what was dropped |
| `Journal.VictimGoesFirst` | src/agent-runtime/AsyncEventHub.ts:162-168 | the next victim precedes every other ordinary event: incremental before other events, older before newer |
| `Journal.PriorityExactly` | src/agent-runtime/AsyncEventHub.ts:162-168 | the documented order spelt out: kinds ending in `.delta` and `tool.progress` before all others, then older before newer |
| `Journal.EvictionRespectsPriority` | src/agent-runtime/AsyncEventHub.ts:159-178 | after any number of evictions every lost event precedes every ordinary event left; the diagnostic is never lost |
| `Journal.DroppingKeepsConsistent` | src/agent-runtime/AsyncEventHub.ts:170-175 | conservation: payloads published = payloads retained + dropped, also for deltas |
| `Journal.NothingGoesUncounted` | src/agent-runtime/AsyncEventHub.ts:159-203 | between publications every payload and every delta ever published is retained or counted by the one diagnostic; without a diagnostic all are retained |
| `Journal.OnlyDiagnosticLeft` | src/agent-runtime/AsyncEventHub.ts:168-169 | when no victim is left the journal is empty or the diagnostic alone |
| `Journal.WithdrawingKeepsPayloads` | src/agent-runtime/AsyncEventHub.ts:181-187 | withdrawing the diagnostic keeps order and payloads |
| `Journal.DiagnosingReports` | src/agent-runtime/AsyncEventHub.ts:180-203 | a fresh diagnostic makes the totals current and everything after it retained |
| `Journal.TrimmingKeepsOrder` | src/agent-runtime/AsyncEventHub.ts:149-178 | across the rounds of one compaction, what was given up still precedes what is left |
| `Journal.ReplayHasNoSilentGap` | src/agent-runtime/AsyncEventHub.ts:88-98 | on an unexpired hub a replay from any cursor is complete or shows the current diagnostic |
| `Journal.ReplayIsSubLog` | src/agent-runtime/AsyncEventHub.ts:92-93 | a replay is an ordered part of the log |
| `Journal.RefusedHistoryIsGone` | src/agent-runtime/AsyncEventHub.ts:88-91 | a cursor refused as expired asks for an event that is no longer retained |
| `Journal.AcceptedGapIsShown` | src/agent-runtime/AsyncEventHub.ts:88-93 | an accepted cursor whose next event is gone gets the current diagnostic |
| `Journal.AcceptedGapExample` | src/agent-runtime/AsyncEventHub.ts:88-91 | such a cursor exists: a delta dropped between two retained events |
| `SessionHistory.CompletedRuns.RetainHub` | src/agent-runtime/LocalExecutionBackend.ts:809-818 | the hubs still replayable are the longest suffix of all finished runs that fits the session budget, the rest are expired; the run just finished is among them if its hub keeps a budget within the session's, unless a lone diagnostic exceeds that |
| `SessionHistory.CompletedRuns.ExpireOldest` | src/agent-runtime/LocalExecutionBackend.ts:812-817 | expiring the oldest hub keeps the running total exact |
| `SessionHistory.NewestIsReplayable` | src/agent-runtime/LocalExecutionBackend.ts:809-818 | the run that just finished stays replayable exactly when its own journal fits the session budget |
| `SessionHistory.LongestFittingSuffixIsUnique` | src/agent-runtime/LocalExecutionBackend.ts:809-818 | the specification determines which runs are kept |
| `SessionHistory.ExpiredStaysExpired` | src/agent-runtime/LocalExecutionBackend.ts:809-818 | what does not fit today cannot fit after later runs, so evicting one at a time loses nothing |
| `RuntimeControls.Lease.Write` | src/agent-runtime/RuntimeSessionStorage.ts:38-43 | a revision-checked write that may be lost before or after taking effect; success means it was acknowledged |
| `RuntimeControls.RuntimeControl.Update` | src/agent-runtime/RuntimeSessionStorage.ts:133-142 | every update is one atomic step: committed, failed without effect, or committed but reported as failed, whatever storage does; it never fails to recognise its own write |
| `RuntimeControls.RuntimeControl.ReconcileWrite` | src/agent-runtime/RuntimeSessionStorage.ts:148-167 | settling an earlier intent never changes what storage says; with working storage it always succeeds |
| `SessionProtocol.Update` | src/agent-runtime/RuntimeSessionStorage.ts:133-142 | without the lease nothing is written; success means the change is durable and cached |
| `DefinitionSessions.DefinitionSession.Run` | src/agent-runtime/DefinitionSession.ts:59-80 | the earlier promise exactly for a used id with the content it was used for, refused and without effect with another; a new admission exactly if nothing is in its way, remembered with its content |
| `DefinitionSessions.DefinitionSession.BeginAdmit` | src/agent-runtime/DefinitionSession.ts:81-91 | a recorded id is looked up, with its recorded run, exactly if the recorded content is the one asked for and the request was not rejected; only an id that is not recorded goes on |
| `DefinitionSessions.DefinitionSession.Inspected` | src/agent-runtime/DefinitionSession.ts:90-94 | new input goes on to its intent only if nothing recorded is active |
| `DefinitionSessions.DefinitionSession.IntentSettles` | src/agent-runtime/DefinitionSession.ts:95-102 | does what the protocol step for a settled intent does, so only an acknowledged intent may be started |
| `DefinitionSessions.DefinitionSession.Start` | src/agent-runtime/DefinitionSession.ts:103-107 | the local run starts exactly if nothing closed, detached or occupied the session meanwhile |
| `DefinitionSessions.DefinitionSession.LocalRunEnds` | src/agent-runtime/LocalExecutionBackend.ts:574-594 | the session is ready again only after confirmed termination |
| `DefinitionSessions.DefinitionSession.AdmissionReturns` | src/agent-runtime/DefinitionSession.ts:76-116 | the settled admission frees the session, a started run is tracked first |
| `DefinitionSessions.DefinitionSession.ResultArrives` | src/agent-runtime/DefinitionSession.ts:119-129 | a result is kept for saving only if termination is confirmed and the observer attached; otherwise the run is called unknown |
| `DefinitionSessions.DefinitionSession.Acknowledge` | src/agent-runtime/DefinitionSession.ts:137-150 | a retained result is let go only once storage acknowledged it |
| `DefinitionSessions.DefinitionSession.GetRun` | src/agent-runtime/DefinitionSession.ts:148-157 | answers with the retained result, the run handed out before, the saved result, or the matching error |
| `DefinitionSessions.DefinitionSession.BeginTransfer` | src/agent-runtime/DefinitionSession.ts:37-46 | a transfer starts exactly on an attached, idle, reconciled session with file access and without another transfer |
| `DefinitionSessions.DefinitionSession.BeginDetach` | src/agent-runtime/DefinitionSession.ts:159-165 | detaching is refused during an admission or transfer and by a driver that cannot detach, and does not set the flag yet |
| `SessionRequests.RepliesExactly` | src/agent-runtime/DefinitionSession.ts:59-80 | the three answers to a call of `run` with their exact conditions on the session's fields; only an admitted call changes anything |
| `SessionRequests.BlankExactly` | src/agent-runtime/DefinitionSession.ts:66-66 | a request id is refused as empty exactly if trimming white space leaves nothing of it |
| `SessionRequests.MeaningsAreKept` | src/agent-runtime/DefinitionSession.ts:67-78 | what an observer used a request id for it remembers for as long as it is there |
| `SessionRequests.RepeatsGetTheSamePromise` | src/agent-runtime/DefinitionSession.ts:67-80 | over any behaviour, after an id was admitted a later call under it gets the same promise exactly with the same content while the session takes input, is refused otherwise, and never changes anything |
| `SessionRequests.CachesAreFromThePast` | src/agent-runtime/RuntimeSessionStorage.ts:126-167 | the record an observer decides by is the durable one of now or of some earlier moment, never anything else |
| `SessionRequests.AdmissionBeginsExactly` | src/agent-runtime/DefinitionSession.ts:81-93 | when an admission is looked up, and with which run, goes on, or is refused, told from the fields |
| `SessionRequests.LookedUpIsRecorded` | src/agent-runtime/DefinitionSession.ts:84-88 | over any behaviour, a request that is looked up is on record with that run and that content, then and for good |
| `SessionRequests.RepeatsAreAnsweredTruthfully` | src/agent-runtime/DefinitionSession.ts:84-88 | a repeat is answered with the run begun for that request and content; it is never unavailable, and a recorded result is the permanent one |
| `SessionRequests.CommittedAdmissions` | src/agent-runtime/DefinitionSession.ts:94-115 | what a committed write puts on record for an intent, its rejection and its acceptance, and that a full or busy ledger records nothing |
| `SessionRequests.CommittedOutcomes` | src/agent-runtime/DefinitionSession.ts:119-147 | the same for a result, an unknown end and the next window |
| `SessionRequests.RestoredExactly` | src/agent-runtime/LocalExecutionBackend.ts:295-313 | what a resumed session goes on with: ready without a recorded run, reserving behind its high water if the driver knows the run, failed otherwise |
| `SessionSteps.PersistIntentKeeps` | src/agent-runtime/DefinitionSession.ts:94-102 | recording an intent keeps the invariant whether storage commits, fails, or commits and reports failure |
| `SessionSteps.StartKeeps` | src/agent-runtime/DefinitionSession.ts:103-107 | starting, and refusing to start, keep the invariant |
| `SessionSteps.PersistRejectionKeeps` | src/agent-runtime/DefinitionSession.ts:108-115 | recording a rejection closes only a run that was never started |
| `SessionSteps.CallKeeps` | src/agent-runtime/LocalExecutionBackend.ts:671-683 | calling the driver keeps the invariant, also from a detached observer |
| `SessionSteps.PersistAcceptedKeeps` | src/agent-runtime/LocalExecutionBackend.ts:208-215 | recording acceptance keeps the invariant whatever storage does |
| `SessionOutcomes.AcceptanceTouchesOnlyItsRun` | src/agent-runtime/LocalExecutionBackend.ts:208-215 | recording acceptance changes at most the state of the run's own record |
| `SessionSteps.PersistOutcomeKeeps` | src/agent-runtime/DefinitionSession.ts:119-157 | saving a result or an unknown state, first or again, keeps the invariant |
| `SessionSteps.PersistWindowKeeps` | src/agent-runtime/LocalExecutionBackend.ts:295-301 | reserving the next sequence window, and failing to, keep the invariant |
| `SessionOutcomes.ReservedOrAbandoned` | src/agent-runtime/LocalExecutionBackend.ts:295-324 | the next window is durable and the observer's own, or the recovery is abandoned: the observer and its lease are gone and nothing was opened |
| `SessionSteps.AdoptKeeps` | src/agent-runtime/LocalExecutionBackend.ts:302-308 | adopting the driver's existing run keeps the invariant |
| `SessionSteps.ResumeKeeps` | src/agent-runtime/LocalExecutionBackend.ts:258-294 | a new observer over the stored record keeps it, older observers still unwinding included |
| `SessionSteps.DropKeeps` | src/agent-runtime/LocalExecutionBackend.ts:314-324 | an observer may crash or unwind at any point |
| `SessionInvariants.OtherUnaffected` | src/agent-runtime/DefinitionSession.ts:119-147 | a step of one observer never breaks what another observer relies on |
| `SessionSafety.StepKeepsInv` | src/agent-runtime/DefinitionSession.ts:59-186 | every step of every observer and of the environment keeps the invariant |
| `SessionSafety.EveryStateKeepsInv` | src/agent-runtime/DefinitionSession.ts:59-186 | the invariant holds in every state of every behaviour |
| `SessionSafety.AtMostOnceDispatch` | src/agent-runtime/DefinitionSession.ts:59-117 | over any interleaving of runs, faults, crashes and recoveries, the native driver is called at most once per run and per request id |
| `SessionSafety.DispatchUsesRecordedPayload` | src/agent-runtime/DefinitionSession.ts:84-102 | a call for a request id carries the content the ledger recorded for it, and the request is not a rejected one |
| `SessionSafety.SubmissionIsWriteAhead` | src/agent-runtime/LocalExecutionBackend.ts:671-681 | a step submits at most one input, only one whose intent is durable and active, while nothing else is live |
| `SessionSafety.RecoveryOnlyAdopts` | src/agent-runtime/LocalExecutionBackend.ts:295-308 | no recovery step submits anything; what is adopted was submitted before, exactly once |
| `SessionSafety.AtMostOneLiveRun` | src/agent-runtime/DefinitionSession.ts:92-101 | at most one native run can be executing, and it is the active one |
| `SessionSafety.LedgerIsConsistent` | src/agent-runtime/DefinitionSession.ts:95-147 | the active run is exactly the one open run; every request points at a recorded run of its own; at most 1024 requests |
| `SessionSafety.StreamsNeverShareNumbers` | src/agent-runtime/LocalExecutionBackend.ts:295-303 | any two openings of a run's stream, across any number of recoveries, number their events in disjoint windows |
| `SessionSafety.StreamsAreReservedBeforehand` | src/agent-runtime/LocalExecutionBackend.ts:299-303 | every execution that begins opens one stream, on a window whose reservation is already durable and which was never opened before; nothing else opens one |
| `SessionSafety.TransfersAreExclusive` | src/agent-runtime/DefinitionSession.ts:37-46 | during a transfer its observer has no admission, no executing run, and refuses input and a second transfer |
| `SessionTransfers.HolderTransfersAlone` | src/agent-runtime/DefinitionSession.ts:37-46 | while the lease holder transfers, no run of the session is started or executing, and no observer is about to start one |
| `SessionTransfers.ClearTransfersAreExclusive` | src/agent-runtime/DefinitionSession.ts:37-46 | if no transfer begins with a detach in flight and no lease is taken away from outside, a transferring observer holds the lease, is the only one transferring, and nothing executes or is about to |
| `SessionTransfers.ClearTransfersDoNotOverlap` | src/agent-runtime/DefinitionSession.ts:37-80 | under that condition no other lease holder takes input during a transfer |
| `SessionTransfers.DetachInFlightOverlaps` | src/agent-runtime/DefinitionSession.ts:159-170 | the condition is exact: wherever a transfer may begin with a detach in flight, it can overlap with input at the session's next observer |
| `SessionTransfers.OverlapIsReachable` | src/agent-runtime/DefinitionSession.ts:159-170 | such an overlap is reached in seven steps from a new session |
| `SessionSafety.OutcomesArePermanent` | src/agent-runtime/DefinitionSession.ts:109-146 | terminal results, rejections and the meaning of request ids never change again |
| `SessionOutcomes.RetainedResultsSurvive` | src/agent-runtime/DefinitionSession.ts:120-150 | a result that was to be kept is at any time still retained or recorded exactly; at the lease holder it can be saved while retained |
| `SessionOutcomes.GetRunIsTruthful` | src/agent-runtime/DefinitionSession.ts:148-157 | with a current record, each of the five answers is given exactly when: retained result, old handle, recorded result, recovery (open runs of others, and rejected ones), unavailable (unrecorded runs) |
| `SessionScenarios.RejectedRunAsksForRecovery` | src/agent-runtime/DefinitionSession.ts:103-157 | reachable: a run that was never given to the driver is answered with the error that asks for recovery |
| `SessionScenarios.HandleOutlivesRepair` | src/agent-runtime/DefinitionSession.ts:125-152 | reachable: after a failed save and its repair, `getRun` answers with the old handle although the result is recorded |
| `SessionSafety.TerminalMeansOver` | src/agent-runtime/DefinitionSession.ts:137-147 | a run recorded terminal has a result, is no longer active, and its native execution is over |
| `SessionSafety.RejectedIsNeverDispatched` | src/agent-runtime/DefinitionSession.ts:108-115 | a run once recorded as rejected is never given to the driver, then or later |
| `SessionOutcomes.RefusalsAreFinal` | src/agent-runtime/DefinitionSession.ts:103-115 | a run whose start was refused stays refused and is never given to the driver, even if the rejection could not be recorded |
| `SessionOutcomes.LeavingIsFinal` | src/agent-runtime/DefinitionSession.ts:159-185 | a detached or closed observer is so for good, refuses every further input, and executes nothing it was not executing |
| `SessionOutcomes.FailureIsFinal` | src/agent-runtime/LocalExecutionBackend.ts:584-592 | after a run ended unconfirmed, the local session is failed or destroyed for good and executes nothing again |
| `SessionOutcomes.NumbersAreNeverReused` | src/agent-runtime/LocalExecutionBackend.ts:299-303 | no two payload events of two openings of a run's stream carry the same number, across any number of recoveries |
| `RunExecution.StepKeepsInv` | src/agent-runtime/LocalExecutionBackend.ts:656-791 | what holds at each await of a run: confirmation only of an execution that is over |
| `RunExecution.ConfirmedMeansOver` | src/agent-runtime/LocalExecutionBackend.ts:687-721 | confirmed termination is real: native execution is over; in definition mode it was called, and its start was refused or its result settled |
| `RunExecution.CompletedIsSound` | src/agent-runtime/LocalExecutionBackend.ts:737-800 | `completed` means a completed driver result, an exhausted event stream, confirmed termination, and nothing dropped |
| `RunExecution.CollectedStatus` | src/agent-runtime/LocalExecutionBackend.ts:737-789 | the exact status of a collected result, and exactly when it is completed |
| `RunExecution.UnconfirmedIsIncomplete` | src/agent-runtime/LocalExecutionBackend.ts:591-608 | in definition mode an unconfirmed run is incomplete and publishes no `run.finished`; any other run keeps the status it resolved to if its host ended well, has failed otherwise, and publishes it exactly if its hub has a number left |
| `RunExecution.ReportedStatus` | src/agent-runtime/LocalExecutionBackend.ts:591-789 | the status of every finished run from the event that resolved it and the one that finished it: collected results, cancelled or failed errors, host failures, unconfirmed termination; and exactly when termination is confirmed |
| `RunExecution.CompletedExactly` | src/agent-runtime/LocalExecutionBackend.ts:591-789 | a run is reported completed exactly for a collected, completed result within all limits that no abort overruled and whose host ended well |
| `RunExecution.ErrorStatus` | src/agent-runtime/LocalExecutionBackend.ts:722-752 | a run that collected no result is cancelled if aborted by anything but its timeout, and has failed otherwise |
| `RunExecution.FailedAwait` | src/agent-runtime/LocalExecutionBackend.ts:684-721 | a failed wait asks native execution to stop exactly if the observer is there and the run was aborted or is attached to a driver that does not observe on its own |
| `RunExecution.NativeIsAskedToStop` | src/agent-runtime/LocalExecutionBackend.ts:684-721 | over any execution, native work still live when the run gets its result was asked to stop, or was left to an independent driver or a departed observer, or was never attached to |
| `RunExecution.WorkspaceLeases.Acquire` | src/agent-runtime/LocalExecutionBackend.ts:432-437 | a taken workspace is refused and its owner named; without an identity no lease is taken |
| `RunExecution.WorkspaceLeases.Release` | src/agent-runtime/LocalExecutionBackend.ts:439-441 | only the owner's lease is released |
| `RunExecution.BackendKeepsInv` | src/agent-runtime/LocalExecutionBackend.ts:574-590 | every unfinished or unconfirmed run holds its workspace alone, and every lease is held by one |
| `RunExecution.WorkspaceExclusivity` | src/agent-runtime/LocalExecutionBackend.ts:432-441 | no workspace ever has two runs whose native execution may still be live |
| `RunExecution.LeaseReleasedOnlyWhenOver` | src/agent-runtime/LocalExecutionBackend.ts:584-590 | a lease is given up only by its holder finishing, with native execution over |
| `RunExecution.UnconfirmedKeepsItsWorkspace` | src/agent-runtime/LocalExecutionBackend.ts:584-590 | a run that ended unconfirmed keeps its workspace locked in every later state of the backend |
| `BoundedArtifacts.BoundArtifacts` | src/agent-runtime/LocalExecutionBackend.ts:944-955 | the longest prefix whose total size fits |
| `BoundedArtifacts.AreArtifactsOverLimit` | src/agent-runtime/LocalExecutionBackend.ts:912-920 | true exactly when the whole does not fit |
| `BoundedArtifacts.ProperExactlyWhenOverLimit` | src/agent-runtime/LocalExecutionBackend.ts:912-955 | the two loops agree: over the limit exactly when the kept prefix is proper |
| `Utf8.RoundTrip` | src/agent-runtime/AsyncEventHub.ts:234-239 | decoding undoes encoding on every well-formed text (section 3 of RFC 3629) |
| `Utf8.EncodesByRange` | src/agent-runtime/AsyncEventHub.ts:234-239 | the lengths and bits of the encoding (section 3 of RFC 3629) |
| `Utf8.DecodesCutText` | src/agent-runtime/AsyncEventHub.ts:236 | decoding the first bytes gives the whole scalar values and one U+FFFD for a cut one |
| `Utf8.TruncationIsLongestPrefix` | src/agent-runtime/AsyncEventHub.ts:234-239 | truncation is the longest prefix that fits, less one real U+FFFD exactly when the cut falls behind it |
| `Utf8.TruncationFits` | src/agent-runtime/LocalExecutionBackend.ts:937-942 | the result is a prefix within the byte bound |
| `Utf8.BoundTextFits` | src/agent-runtime/LocalExecutionBackend.ts:900-910 | with its notice the text keeps to the limit, and it changes exactly when it is over the limit |
| `Utf8.BoundTextWithoutNotice` | src/agent-runtime/LocalExecutionBackend.ts:900-905 | where the notice has no room the longest fitting prefix is kept without it |
| `Utf8.BoundTextKeepsPrefix` | src/agent-runtime/LocalExecutionBackend.ts:900-906 | what is kept in front of the notice is the longest prefix that fits there, less one real U+FFFD exactly when the cut falls behind it |
| `ManagedEventBuffers.ManagedEventBuffer.constructor` | src/agent-runtime/ManagedEventBuffer.ts:2-3 | observation starts empty |
| `ManagedEventBuffers.ManagedEventBuffer.Receive` | src/agent-runtime/ManagedEventBuffer.ts:6 | the pump counts an event, then queues it and wakes the consumer, or fails and aborts |
| `ManagedEventBuffers.ManagedEventBuffer.Finish` | src/agent-runtime/ManagedEventBuffer.ts:7 | the end or a failure of the stream wakes the consumer |
| `ManagedEventBuffers.ManagedEventBuffer.Poll` | src/agent-runtime/ManagedEventBuffer.ts:9-12 | one turn of the consumer: yields the oldest event, sleeps, returns, or throws |
| `ManagedEventBuffers.EveryStateIsSound` | src/agent-runtime/ManagedEventBuffer.ts:2-12 | in every interleaving the byte count is that of the queue, plus the refused event |
| `ManagedEventBuffers.ObservationIsFifo` | src/agent-runtime/ManagedEventBuffer.ts:2-12 | delivered and queued events are a prefix of the source, all of it unless the bound was exceeded, and then all but one; the queue keeps the bound |
| `ManagedEventBuffers.ExceededIsJustified` | src/agent-runtime/ManagedEventBuffer.ts:6 | the bound is reported exactly when the event does not fit beside the queue |
| `ManagedEventBuffers.EndsAfterDraining` | src/agent-runtime/ManagedEventBuffer.ts:10 | a failure surfaces only after the queue drained; a normal return means no failure, or a falsy one |
| `ManagedEventBuffers.NeverAsleepOverNews` | src/agent-runtime/ManagedEventBuffer.ts:10 | the consumer never sleeps over an item or the end, and any news wakes it |
| `ManagedEventBuffers.DrainsInBoundedTurns` | src/agent-runtime/ManagedEventBuffer.ts:10 | once the stream is over, the consumer ends after one turn per queued event and one more, with all delivered |
| `FileTransfers.PortableIsPlain` | src/agent-runtime/RuntimeFileTransfers.ts:17-20 | which filenames are portable; each is one plain, visible path segment |
| `FileTransfers.ReadFileResponse` | src/agent-runtime/RuntimeFileTransfers.ts:28-48 | succeeds exactly for an allowed type, a plain success status, an unbroken body within the bound and exactly the declared length if one is given; every chunk stands behind all earlier ones; never holds more than the bound before a read; an unread body is cancelled |
| `FileTransfers.ResponseVerdict` | src/agent-runtime/RuntimeFileTransfers.ts:22-48 | each error kind exactly for the first thing wrong: declared size, type, status, missing body, bound, break, count |
| `FileTransfers.EveryChunkHasItsPlace` | src/agent-runtime/RuntimeFileTransfers.ts:47-47 | concatenation puts every chunk at the sum of the earlier lengths and adds nothing |
| `FileTransfers.ReadUpload` | src/agent-runtime/RuntimeFileTransfers.ts:69-76 | terminates under any short reads with every byte filled; the bytes are the file's own if modification times tell; an unchanged readable file always succeeds |
| `FileTransfers.TargetIsContained` | src/agent-runtime/RuntimeFileTransfers.ts:53-64 | an accepted path names a file strictly below the resolved root, in a directory no symbolic link leads to, under the smaller of both byte bounds and the access's types |
| `FileTransfers.TargetAcceptsExactly` | src/agent-runtime/RuntimeFileTransfers.ts:53-64 | exactly which transfers are accepted, for any canonical `realpath` |
| `FileTransfers.ValidRelativeExactly` | src/agent-runtime/RuntimeFileTransfers.ts:57-57 | transfer paths are exactly the joins of segments that are not empty, `.` or `..` and hold no slash or backslash |
| `FileTransfers.MediaTypeExactly` | src/agent-runtime/RuntimeFileTransfers.ts:56-56 | media types are exactly two words of the permitted characters around one slash |
| `FileTransfers.PrefixTestDecides` | src/agent-runtime/RuntimeFileTransfers.ts:59-62 | the prefix test is redundant for every root but `/`, and what it decides there |
| `PosixPaths.JoinOfPlain` | src/agent-runtime/RuntimeFileTransfers.ts:59 | joining plain segments to a resolved root is concatenation |
| `PosixPaths.DirNameOfJoin` | src/agent-runtime/RuntimeFileTransfers.ts:60 | the directory of the joined path is the root or lies below it |
| `CanonicalOrder.Sorted` | src/access/principals.ts:136-139 | sorting gives the one ascending sequence of the set |
| `CanonicalOrder.LessComparesCodeUnits` | src/access/principals.ts:136-139 | the order of the arrays is that of UTF-16 code units, as the host language sorts |
| `CanonicalOrder.AscendingIsUnique` | src/access/principals.ts:95-100 | identical sets give identical arrays |
| `Principals.ParsingUndoesTokens` | src/access/principals.ts:50-67 | parsing undoes every token constructor, and only `world` parses as public |
| `Principals.TokensUndoParsing` | src/access/principals.ts:50-67 | a recognised token with an id is the one its constructor builds |
| `Principals.UnknownExactly` | src/access/principals.ts:50-67 | bare prefixes parse without an id, and a token is unknown exactly if it begins with no known prefix |
| `Principals.MaterializePrincipals` | src/access/principals.ts:101-140 | the arrays are the ascending sequences of exactly the principals that owner, flags and ACL entries grant |
| `Principals.GrantEntries` | src/access/principals.ts:126-134 | an entry grants reading or writing by its actions; empty and unrecognised actions grant nothing |
| `Principals.WritersAreReaders` | src/access/principals.ts:95-100 | write principals are among the read principals |
| `Principals.PrincipalsForLibraryRecord` | src/access/principals.ts:151-211 | a record's arrays come from its defaulted levels, owner, group and ACL |
| `Principals.AccessAgreement` | src/access/principals.ts:201-240 | the decision from the arrays is the direct reading of the record, for any caller principals |
| `Principals.MissingArrayDeniesAll` | src/access/principals.ts:227-240 | a record without the array asked for authorizes nobody, whatever the other array holds |
| `Principals.AccessIsThatOfAMember` | src/access/principals.ts:227-240 | a caller has exactly the access of its principals one by one; no principals have none |
| `Principals.StoredAgreement` | src/access/principals.ts:201-240 | a stored record as it is: denied without its array, the direct reading with the materialized one |
| `Principals.StoredAgreesExactly` | src/access/principals.ts:201-240 | a stored record decides as the direct reading for every caller exactly if its array names whoever is granted something |
| `Principals.AccessOfOne` | src/access/principals.ts:101-240 | who may do what, spelt out on a record's owner, group, levels with their defaults, and ACL |
| `Principals.LegacyAgreement` | src/memory/AccessControl.ts:181-223 | exactly when the older check agrees with the principal arrays; the arrays never grant less |
| `Principals.RewritePrincipalReferences` | src/access/principals.ts:260-272 | an array without the token is unchanged, otherwise it is the ascending sequence of the renamed tokens |
| `Principals.RewriteAclPrincipalReferences` | src/access/principals.ts:279-299 | an ACL without the token is unchanged, otherwise one entry a principal with all its actions, each in order of first occurrence |
| `Principals.Grouped` | src/access/principals.ts:288-294 | the insertion-ordered map collects each principal's distinct actions |
| `Principals.RewrittenAclGrants` | src/access/principals.ts:279-299 | a principal holds an action afterwards exactly when some entry gave it under its old name |
| `Principals.OneEntryPerPrincipal` | src/access/principals.ts:287-298 | a rewritten ACL has one entry a principal and names each action once |
| `Principals.FirstSeenFirst` | src/access/principals.ts:287-298 | rewritten entries stand in the order in which their principals first occur |
| `Principals.RewrittenArrayIsCanonical` | src/access/principals.ts:260-272 | on materialized arrays both branches give the ascending sequence of the renamed tokens |
| `Principals.MergeCommutesWithMaterialize` | src/access/principals.ts:260-299 | rewriting the ACL and materializing gives the same arrays as materializing and rewriting, for every input |
| `Principals.MergeMovesExactlyThatAccess` | src/access/principals.ts:260-299 | after a merge the target holds exactly the union, the merged entity, if another, nothing, everybody else what they had |
| `Principals.MergesOfAChainAgree` | src/access/principals.ts:260-272 | merging a into b into c gives the same arrays in either order |

## Left out

- `DefinitionSession`, `LocalAgentSession` and `executeRun` as asynchronous methods: their awaits
  interleave, so the protocol and the run are transition systems over values; the session object
  itself appears only through the synchronous stretches of its methods.
- SessionSafety.AtMostOnceDispatch: covers sessions with a durable control record; a session
  without one keeps no ledger, and process-local `reattach` is not modelled.
- SessionOutcomes.RetainedResultsSurvive: promises are not part of the state; that a handle's promise is
  settled by the first save of its result, and never again, is how promises work.
- SessionTransfers.ClearTransfersAreExclusive: says nothing of a lease taken away from outside while
  its holder transfers; nothing in the session can prevent an overlap then.
- SessionOutcomes.NumbersAreNeverReused: is about payload events; compaction diagnostics may be
  numbered beyond the end of their window.
- RunExecution.WorkspaceExclusivity: is about one live backend; destroying a backend or its process
  ends every lease.
- RunExecution.UnconfirmedIsIncomplete: covers the fulfilled path of the finish callback; the path for
  an error thrown by `executeRun` itself is not modelled.
- EventHub.AsyncEventHub.Publish: event data arrives already bounded; `boundEventData` cuts raw text
  before escaping, so no claim is made on serialized size. Timestamps, freezing and JSON are absent and
  sizes are an arbitrary function of the event.
- EventHub.AsyncEventHub.Create: byte budgets beyond the safe integer range are not distinguished.
- Principals.RewriteAclPrincipalReferences: reference identity of an unchanged result is equality here.
- Utf8.TruncateUtf8: is defined on well-formed text; unpaired surrogates are outside the model.
- FileTransfers.Target: POSIX separators only; `realpath` is a parameter that answers canonical paths.
- FileTransfers.ReadFileResponse: the media type is the already normalised header; network, file
  handles and the exclusive creation of the destination are absent.
- ManagedEventBuffers.ManagedEventBuffer: one consumer; a consumer that stops early aborts the stream
  and is not modelled further. An undefined event cannot be serialized and is a stream failure.
- Digests are injective: a payload stands for its digest. Run ids are fresh.
- Host tools, the outbox and unresolved effects are a free choice at the inspection step.
- Timeouts are free choices; a wait succeeds only when what it waits for has happened.
- `boundJsonValue`, capability and policy validation, event filtering, and the provider drivers.
- `fromNimbleAudit`, the Mongo filters and `patchTouchesAccessFields`: single expressions.
- The file storage's lock file and its reclaiming: the lease is exclusive by assumption.
