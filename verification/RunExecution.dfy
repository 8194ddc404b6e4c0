/**
  One local run from its reservation to its result, as a transition system: the code resumes
  between awaits, while cancellation, detaching, the native run and its event stream move on
  their own. Timeouts are free choices, except that a wait can only succeed when what it
  waits for has happened.
 */
module RunExecution {
  import opened Wrappers
  import opened BoundedArtifacts

  // ---- Results -----------------------------------------------------------------------

  datatype Status = Completed | FailedStatus | Cancelled | Incomplete

  // What the driver reports, reduced to what bounding looks at.
  datatype DriverResult = DriverResult(status: Status, textBytes: nat, parsedBytes: Option<nat>, artifactBytes: seq<nat>)

  datatype Limits = Limits(outputBytes: Option<nat>, artifactBytes: Option<nat>)

  predicate OverLimit(bytes: nat, limit: Option<nat>) {
    limit.Some? && limit.value > 0 && bytes > limit.value
  }

  // Text, parsed value or artifacts would lose something.
  predicate Truncated(r: DriverResult, limits: Limits) {
    || OverLimit(r.textBytes, limits.outputBytes)
    || (r.parsedBytes.Some? && OverLimit(r.parsedBytes.value, limits.outputBytes))
    || !Fits((n: nat) => n, r.artifactBytes, limits.artifactBytes)
  }

  // ---- The native side ---------------------------------------------------------------

  datatype NativeOutcome = Fulfilled(result: DriverResult) | Broken

  datatype Native =
    | NotCalled
    | Starting                     // `run` was called and has not answered
    | Refused                      // `run` rejected
    | Running
    | Settled(outcome: NativeOutcome)

  // The driver's contract: a result settles only once execution can do nothing more.
  predicate Over(n: Native) {
    n == NotCalled || n == Refused || n.Settled?
  }

  datatype Stream = Open | Exhausted | Failed

  // ---- The run -----------------------------------------------------------------------

  datatype Config = Config(definition: bool, independent: bool, adopted: bool, limits: Limits)

  datatype Phase =
    | Beginning       // await beginRun
    | AwaitingStart   // await the native run, racing the abort signals
    | Accepting       // await onNativeAccepted
    | Collecting      // await event stream and result, racing the abort signals
    | Cancelling      // await the bounded cancel request
    | AwaitingLate    // await a start that was overtaken by an abort
    | Confirming      // await the bounded termination check
    | Resolved(status: Status)
    | Finished(status: Status, finishedEvent: bool)

  datatype Run = Run(
    config: Config, phase: Phase, confirmed: bool, aborted: bool, timedOut: bool, observerGone: bool,
    called: bool, attached: bool, collecting: bool, native: Native, stream: Stream)

  // A fresh run of `executeRun`; definition mode starts out unconfirmed.
  function Begin(config: Config, native: Native): Run {
    Run(config, Beginning, !config.definition, false, false, false, false, false, false, native, Open)
  }

  predicate MayBegin(config: Config, native: Native) {
    if config.adopted then config.definition && (native.Running? || native.Settled?) else native == NotCalled
  }

  // The stream is read to its end or failure, and after its end the result has settled.
  predicate CollectionSettled(r: Run) {
    r.stream == Failed || (r.stream == Exhausted && r.native.Settled?)
  }

  // The synchronous tail of `executeRun`.
  function Resolve(r: Run, result: DriverResult): (r': Run)
    ensures r' == r.(phase := r'.phase) && r'.phase.Resolved?
  {
    var overridden := !r.config.definition || !r.confirmed;
    var status :=
      if r.timedOut && overridden then FailedStatus
      else if r.aborted && overridden then Cancelled
      else result.status;
    r.(phase := Resolved(if Truncated(result, r.config.limits) && status == Completed then Incomplete else status))
  }

  function ResolveError(r: Run): (r': Run)
    ensures r' == r.(phase := r'.phase) && r'.phase.Resolved?
  {
    Resolve(r, DriverResult(if r.aborted && !r.timedOut then Cancelled else FailedStatus, 0, None, []))
  }

  // The catch block up to its first await.
  function Caught(r: Run): (r': Run)
    ensures r'.config == r.config && (r'.phase.Resolved? || r'.phase == Cancelling)
  {
    if r.observerGone then ResolveError(r.(confirmed := false))
    else if r.aborted then r.(phase := Cancelling)
    else if r.config.definition && r.config.independent then ResolveError(r.(confirmed := false))
    else if r.attached then r.(phase := Cancelling)
    else ResolveError(r)
  }

  datatype Event =
    // the environment
    | Abort(timeout: bool)
    | ObserverGone
    | NativeStarts
    | NativeRefuses
    | NativeSettles(outcome: NativeOutcome)
    | StreamEnds(failed: bool)
    // the code
    | Begun(ok: bool)
    | StartArrives
    | StartFails
    | AcceptedNative(ok: bool)
    | Collected
    | CollectionFails
    | CancelReturns
    | LateStart(inTime: bool)
    | Confirm(confirmed: bool)
    | Finish(hostOk: bool, sequence: nat, maxSequence: nat)   // where the run's hub stands then

  predicate Enabled(r: Run, e: Event) {
    match e
    case Abort(_) => true
    case ObserverGone => r.config.definition
    case NativeStarts => r.native == Starting
    case NativeRefuses => r.native == Starting
    case NativeSettles(_) => r.native == Running
    case StreamEnds(_) => r.collecting && r.stream == Open
    case Begun(_) => r.phase == Beginning
    case StartArrives => r.phase == AwaitingStart && (r.native.Running? || r.native.Settled?)
    case StartFails => r.phase == AwaitingStart && (r.native == Refused || r.aborted || r.observerGone)
    case AcceptedNative(_) => r.phase == Accepting
    case Collected => r.phase == Collecting && r.stream == Exhausted && r.native.Settled? && r.native.outcome.Fulfilled?
    case CollectionFails =>
      r.phase == Collecting &&
      (r.aborted || r.observerGone || r.stream == Failed || (r.stream == Exhausted && r.native == Settled(Broken)))
    case CancelReturns => r.phase == Cancelling
    case LateStart(inTime) => r.phase == AwaitingLate && (inTime ==> r.native != Starting)
    case Confirm(confirmed) =>
      r.phase == Confirming && (confirmed ==> r.native.Settled? && (r.collecting ==> CollectionSettled(r)))
    case Finish(_, _, _) => r.phase.Resolved?
  }

  function Next(r: Run, e: Event): Run
    requires Enabled(r, e)
  {
    match e
    case Abort(timeout) => r.(aborted := true, timedOut := r.timedOut || timeout)
    case ObserverGone => r.(observerGone := true)
    case NativeStarts => r.(native := Running)
    case NativeRefuses => r.(native := Refused)
    case NativeSettles(outcome) => r.(native := Settled(outcome))
    case StreamEnds(failed) => r.(stream := if failed then Failed else Exhausted)
    case Begun(ok) =>
      if ok then r.(phase := AwaitingStart, called := true, native := if r.config.adopted then r.native else Starting)
      else Caught(r)
    case StartArrives => r.(phase := Accepting, attached := true)
    case StartFails => Caught(r)
    case AcceptedNative(ok) => if ok then r.(phase := Collecting, collecting := true) else Caught(r)
    case Collected => Resolve(r.(confirmed := true), r.native.outcome.result)
    case CollectionFails => Caught(r)
    case CancelReturns =>
      if r.attached then r.(phase := Confirming)
      else if r.called then r.(phase := AwaitingLate)
      else ResolveError(r.(confirmed := false))
    case LateStart(inTime) =>
      if !inTime then ResolveError(r.(confirmed := false))
      else if r.native == Refused then ResolveError(r.(confirmed := true))
      else r.(phase := Confirming, attached := true, collecting := true)
    case Confirm(confirmed) => ResolveError(r.(confirmed := confirmed))
    case Finish(hostOk, sequence, maxSequence) =>
      // `run.finished` is published last, and its publication may fail like any other.
      var status := if hostOk then r.phase.status else FailedStatus;
      r.(phase := Finished(
           if r.config.definition && !r.confirmed then Incomplete else status,
           (!r.config.definition || r.confirmed) && sequence < maxSequence))
  }

  // ---- What every run keeps ----------------------------------------------------------

  predicate Started(n: Native) {
    n.Running? || n.Settled?
  }

  ghost predicate Inv(r: Run) {
    && (r.config.adopted ==> r.config.definition && Started(r.native))
    && (r.observerGone ==> r.config.definition)
    && (r.timedOut ==> r.aborted)
    && (r.attached ==> Started(r.native))
    && (r.called ==> r.native != NotCalled)
    && (!r.called && !r.config.adopted ==> r.native == NotCalled)
    && (!Done(r) ==> r.confirmed == !r.config.definition)
    && (match r.phase
        case Beginning => !r.called && !r.attached && !r.collecting
        case AwaitingStart => r.called && !r.attached && !r.collecting
        case Accepting => r.called && r.attached && !r.collecting
        case Collecting => r.called && r.attached && r.collecting
        case Cancelling => (r.attached ==> r.called) && (r.collecting ==> r.attached) && (!r.attached ==> r.aborted)
        case AwaitingLate => r.called && !r.attached && !r.collecting
        case Confirming => r.called && r.attached
        case _ => r.confirmed ==> Over(r.native))
    && (CompletedStatus(r) ==> CompletedProperly(r))
    && (r.config.definition && r.confirmed ==> r.called)
    && (r.phase.Finished? && r.phase.finishedEvent ==> !r.config.definition || r.confirmed)
    && (r.phase.Finished? && r.config.definition && !r.confirmed ==> r.phase.status == Incomplete)
  }

  predicate Done(r: Run) {
    r.phase.Resolved? || r.phase.Finished?
  }

  predicate CompletedStatus(r: Run) {
    Done(r) && r.phase.status == Completed
  }

  // What `completed` promises.
  predicate CompletedProperly(r: Run) {
    && r.native.Settled? && r.native.outcome.Fulfilled?
    && r.native.outcome.result.status == Completed
    && r.stream == Exhausted
    && r.confirmed
    && !Truncated(r.native.outcome.result, r.config.limits)
  }

  lemma BeginInv(config: Config, native: Native)
    requires MayBegin(config, native)
    ensures Inv(Begin(config, native))
  {
  }

  lemma CaughtInv(r: Run)
    requires Inv(r) && !Done(r)
    requires (r.attached ==> r.called) && (r.collecting ==> r.attached)
    // without an abort, an unattached run got here because nothing was started
    requires !r.attached && !r.aborted && !r.observerGone ==> r.config.definition || Over(r.native)
    ensures Inv(Caught(r))
  {
    hide Truncated;
  }

  lemma StepKeepsInv(r: Run, e: Event)
    requires Inv(r) && Enabled(r, e)
    ensures Inv(Next(r, e))
  {
    hide Inv, Enabled, Next;
    match e
    case Begun(_) => StartingKeepsInv(r, e);
    case StartArrives => StartingKeepsInv(r, e);
    case StartFails => StartingKeepsInv(r, e);
    case AcceptedNative(_) => AcceptingKeepsInv(r, e);
    case Collected => CollectingKeepsInv(r, e);
    case CollectionFails => CollectingKeepsInv(r, e);
    case CancelReturns => CancellingKeepsInv(r, e);
    case LateStart(_) => LateStartKeepsInv(r, e);
    case Confirm(_) => ConfirmingKeepsInv(r, e);
    case Finish(_, _, _) => ConfirmingKeepsInv(r, e);
    case Abort(_) => SignalsKeepInv(r, e);
    case ObserverGone => SignalsKeepInv(r, e);
    case _ => NativeKeepsInv(r, e);
  }

  lemma SignalsKeepInv(r: Run, e: Event)
    requires Inv(r) && Enabled(r, e) && (e.Abort? || e.ObserverGone?)
    ensures Inv(Next(r, e))
  {
    hide Truncated;
  }

  lemma NativeKeepsInv(r: Run, e: Event)
    requires Inv(r) && Enabled(r, e) && (e.NativeStarts? || e.NativeRefuses? || e.NativeSettles? || e.StreamEnds?)
    ensures Inv(Next(r, e))
  {
    hide Truncated;
  }

  lemma StartingKeepsInv(r: Run, e: Event)
    requires Inv(r) && Enabled(r, e) && (e.Begun? || e.StartArrives? || e.StartFails?)
    ensures Inv(Next(r, e))
  {
    hide Truncated, Caught;
    if e.StartFails? || (e.Begun? && !e.ok) {
      CaughtInv(r);
    }
  }

  lemma AcceptingKeepsInv(r: Run, e: Event)
    requires Inv(r) && Enabled(r, e) && e.AcceptedNative?
    ensures Inv(Next(r, e))
  {
    hide Truncated, Caught;
    if !e.ok {
      CaughtInv(r);
    }
  }

  lemma CollectingKeepsInv(r: Run, e: Event)
    requires Inv(r) && Enabled(r, e) && (e.Collected? || e.CollectionFails?)
    ensures Inv(Next(r, e))
  {
    hide Truncated, Caught;
    if e.CollectionFails? {
      CaughtInv(r);
    }
  }

  lemma CancellingKeepsInv(r: Run, e: Event)
    requires Inv(r) && Enabled(r, e) && e.CancelReturns?
    ensures Inv(Next(r, e))
  {
    hide Truncated;
  }

  lemma LateStartKeepsInv(r: Run, e: Event)
    requires Inv(r) && Enabled(r, e) && e.LateStart?
    ensures Inv(Next(r, e))
  {
    hide Truncated;
  }

  lemma ConfirmingKeepsInv(r: Run, e: Event)
    requires Inv(r) && Enabled(r, e) && (e.Confirm? || e.Finish?)
    ensures Inv(Next(r, e))
  {
    hide Truncated;
  }

  // ---- Main results about one run ----------------------------------------------------

  ghost predicate Execution(runs: seq<Run>, events: seq<Event>) {
    && |runs| == |events| + 1
    && (exists config, native :: MayBegin(config, native) && runs[0] == Begin(config, native))
    && forall i :: 0 <= i < |events| ==> Enabled(runs[i], events[i]) && runs[i + 1] == Next(runs[i], events[i])
  }

  lemma {:induction false} ExecutionKeepsInv(runs: seq<Run>, events: seq<Event>, i: nat)
    requires Execution(runs, events) && i < |runs|
    ensures Inv(runs[i])
  {
    hide Inv, Enabled, Next;
    if i == 0 {
      var config, native :| MayBegin(config, native) && runs[0] == Begin(config, native);
      BeginInv(config, native);
    } else {
      ExecutionKeepsInv(runs, events, i - 1);
      StepKeepsInv(runs[i - 1], events[i - 1]);
    }
  }

  // Confirmed termination is real: once the run has its result and claims confirmation,
  // native execution is over or was never started; in definition mode it was called, and
  // its start was refused or its result has settled.
  lemma ConfirmedMeansOver(runs: seq<Run>, events: seq<Event>, i: nat)
    requires Execution(runs, events) && i < |runs| && Done(runs[i]) && runs[i].confirmed
    ensures Over(runs[i].native)
    ensures runs[i].config.definition ==> runs[i].called && (runs[i].native == Refused || runs[i].native.Settled?)
  {
    hide Execution;
    ExecutionKeepsInv(runs, events, i);
  }

  // A run reports `completed` only for a completed driver result whose events were all
  // read, whose termination is confirmed, and of which nothing was dropped.
  lemma CompletedIsSound(runs: seq<Run>, events: seq<Event>, i: nat)
    requires Execution(runs, events) && i < |runs| && CompletedStatus(runs[i])
    ensures CompletedProperly(runs[i])
  {
    hide Execution;
    ExecutionKeepsInv(runs, events, i);
  }

  // The status of a collected result: in definition mode, and for a run that was not aborted,
  // the driver's own, except that a completed result of which something was dropped is
  // incomplete; otherwise the abort decides. It is `completed` in exactly one case.
  lemma CollectedStatus(r: Run)
    requires Inv(r) && Enabled(r, Collected)
    ensures Next(r, Collected).phase.Resolved?
    ensures var result := r.native.outcome.result;
            Next(r, Collected).phase.status ==
              if !r.config.definition && r.aborted then (if r.timedOut then FailedStatus else Cancelled)
              else if result.status == Completed && Truncated(result, r.config.limits) then Incomplete
              else result.status
    ensures Next(r, Collected).phase.status == Completed <==>
              && r.native.outcome.result.status == Completed
              && !Truncated(r.native.outcome.result, r.config.limits)
              && (r.config.definition || !r.aborted)
  {
    hide Truncated;
  }

  // What a run that did not collect a result resolves to, and what it then knows about its
  // termination.
  lemma ErrorStatus(r: Run, e: Event)
    requires Inv(r) && Enabled(r, e) && !e.Collected? && !Done(r) && Done(Next(r, e))
    ensures Next(r, e).phase == Resolved(if r.aborted && !r.timedOut then Cancelled else FailedStatus)
    ensures Next(r, e).confirmed <==>
              || (e.Confirm? && e.confirmed)
              || (e.LateStart? && r.native == Refused && e.inTime)
              || (!r.config.definition && !e.Confirm? && !e.LateStart? && !e.CancelReturns?)
  {
    hide Resolve, ResolveError, Truncated;
    ErrorResolves(r.(confirmed := false));
    ErrorResolves(r.(confirmed := true));
    ErrorResolves(r);
    match e
    case CancelReturns =>
    case LateStart(_) =>
    case Confirm(_) =>
    case _ =>
      CaughtStep(r, e);
  }

  lemma ErrorResolves(r: Run)
    requires r.timedOut ==> r.aborted
    ensures ResolveError(r).phase == Resolved(if r.aborted && !r.timedOut then Cancelled else FailedStatus)
    ensures ResolveError(r).confirmed == r.confirmed
  {
    NothingIsNotTruncated(r.config.limits);
    hide Truncated;
  }

  lemma CaughtStep(r: Run, e: Event)
    requires Inv(r) && Enabled(r, e) && !e.Collected? && !Done(r) && Done(Next(r, e))
    requires !e.CancelReturns? && !e.LateStart? && !e.Confirm?
    ensures Next(r, e) == Caught(r)
    ensures Caught(r) == ResolveError(r) || (r.config.definition && Caught(r) == ResolveError(r.(confirmed := false)))
    ensures r.confirmed == !r.config.definition
  {
    hide Resolve, ResolveError, Truncated;
  }

  lemma NothingIsNotTruncated(limits: Limits)
    ensures forall status :: !Truncated(DriverResult(status, 0, None, []), limits)
  {
  }

  // The one event that gave a run its result, before whatever finished it.
  lemma {:induction false} ResolvedBy(runs: seq<Run>, events: seq<Event>, i: nat) returns (m: nat)
    requires Execution(runs, events) && i < |runs| && runs[i].phase.Resolved?
    ensures m < i && !Done(runs[m]) && Done(runs[m + 1])
    ensures runs[i].phase == runs[m + 1].phase && runs[i].confirmed == runs[m + 1].confirmed
    ensures runs[i].config == runs[m].config
  {
    hide Enabled, Next, Inv;
    if i == 0 {
      assert false;
    }
    StepKeepsKind(runs[i - 1], events[i - 1]);
    if runs[i - 1].phase.Resolved? {
      m := ResolvedBy(runs, events, i - 1);
    } else {
      m := i - 1;
    }
  }

  // What a run was begun with never changes, and neither does its result once it has one.
  lemma StepKeepsKind(r: Run, e: Event)
    requires Enabled(r, e)
    ensures Next(r, e).config == r.config
    ensures r.phase.Finished? ==> Next(r, e).phase == r.phase && Next(r, e).confirmed == r.confirmed
    ensures r.phase.Resolved? && !e.Finish? ==> Next(r, e).phase == r.phase && Next(r, e).confirmed == r.confirmed
    ensures r.phase.Resolved? && e.Finish? ==> Next(r, e).phase.Finished? && Next(r, e).confirmed == r.confirmed
    ensures Next(r, e).phase.Finished? ==> r.phase.Finished? || (e.Finish? && r.phase.Resolved?)
  {
    if e.Finish? {
      FinishKeepsKind(r, e);
    } else if e.Abort? || e.ObserverGone? || e.NativeStarts? || e.NativeRefuses? || e.NativeSettles? || e.StreamEnds? {
      EnvironmentKeepsKind(r, e);
    } else {
      NotDoneYet(r, e);
      CodeKeepsKind(r, e);
    }
    hide Enabled, Next;
  }

  lemma FinishKeepsKind(r: Run, e: Event)
    requires Enabled(r, e) && e.Finish?
    ensures Next(r, e).config == r.config && r.phase.Resolved? && Next(r, e).phase.Finished? && Next(r, e).confirmed == r.confirmed
  {
  }

  lemma EnvironmentKeepsKind(r: Run, e: Event)
    requires Enabled(r, e)
    requires e.Abort? || e.ObserverGone? || e.NativeStarts? || e.NativeRefuses? || e.NativeSettles? || e.StreamEnds?
    ensures Next(r, e).config == r.config && Next(r, e).phase == r.phase && Next(r, e).confirmed == r.confirmed
  {
    hide Enabled, Resolve, ResolveError, Caught;
  }

  lemma NotDoneYet(r: Run, e: Event)
    requires Enabled(r, e) && !e.Finish?
    requires !(e.Abort? || e.ObserverGone? || e.NativeStarts? || e.NativeRefuses? || e.NativeSettles? || e.StreamEnds?)
    ensures !r.phase.Resolved? && !r.phase.Finished?
  {
  }

  lemma CodeKeepsKind(r: Run, e: Event)
    requires Enabled(r, e) && !e.Finish?
    ensures Next(r, e).config == r.config && (Next(r, e).phase.Finished? ==> r.phase.Finished?)
  {
    hide Resolve, ResolveError, Caught, Enabled;
    match e
    case Begun(_) =>
    case StartArrives =>
    case StartFails =>
    case AcceptedNative(_) =>
    case Collected =>
    case CollectionFails =>
    case CancelReturns =>
    case LateStart(_) =>
    case Confirm(_) =>
    case _ =>
  }

  // The one event that finished a run.
  lemma {:induction false} FinishedBy(runs: seq<Run>, events: seq<Event>, i: nat) returns (k: nat)
    requires Execution(runs, events) && i < |runs| && runs[i].phase.Finished?
    ensures k < i && events[k].Finish? && runs[k].phase.Resolved?
    ensures runs[i].phase == runs[k + 1].phase && runs[i].confirmed == runs[k].confirmed && runs[i].config == runs[k].config
  {
    hide Enabled, Next, Inv;
    if i == 0 {
      assert false;
    }
    StepKeepsKind(runs[i - 1], events[i - 1]);
    if runs[i - 1].phase.Finished? {
      k := FinishedBy(runs, events, i - 1);
    } else {
      k := i - 1;
    }
  }

  // In definition mode, an unconfirmed run is reported incomplete and publishes no
  // run.finished. Any other run keeps the status it resolved to if its host ended well, and
  // has failed otherwise; it publishes run.finished exactly if its hub has a number left.
  lemma {:induction false} UnconfirmedIsIncomplete(runs: seq<Run>, events: seq<Event>, i: nat) returns (k: nat)
    requires Execution(runs, events) && i < |runs| && runs[i].phase.Finished?
    ensures runs[i].config.definition && !runs[i].confirmed ==> runs[i].phase.status == Incomplete && !runs[i].phase.finishedEvent
    ensures k < i && events[k].Finish? && runs[k].phase.Resolved? && runs[k].confirmed == runs[i].confirmed
    ensures runs[i].phase.status ==
              if runs[i].config.definition && !runs[i].confirmed then Incomplete
              else if events[k].hostOk then runs[k].phase.status
              else FailedStatus
    ensures runs[i].phase.finishedEvent <==>
              (!runs[i].config.definition || runs[i].confirmed) && events[k].sequence < events[k].maxSequence
  {
    hide Inv, Execution;
    k := FinishedBy(runs, events, i);
    StepIs(runs, events, k);
  }

  lemma StepIs(runs: seq<Run>, events: seq<Event>, k: nat)
    requires Execution(runs, events) && (k < |events| || k + 1 < |runs|)
    ensures k < |events| && k + 1 < |runs| && Enabled(runs[k], events[k]) && runs[k + 1] == Next(runs[k], events[k])
  {
  }

  // The status a finished run reports, from the event `m` that gave it a result and the event
  // `k` that finished it. A collected result speaks for itself unless an abort overrules it or
  // something of it was dropped; a run that ended in an error is cancelled if it was aborted
  // by anything but its timeout, and has failed otherwise.
  lemma ReportedStatus(runs: seq<Run>, events: seq<Event>, i: nat) returns (m: nat, k: nat)
    requires Execution(runs, events) && i < |runs| && runs[i].phase.Finished?
    ensures m < k < i && events[k].Finish? && !Done(runs[m]) && Done(runs[m + 1])
    ensures events[m].Collected? ==> runs[m].native.Settled? && runs[m].native.outcome.Fulfilled?
    ensures var r := runs[m];
            var resolved :=
              if !events[m].Collected? then (if r.aborted && !r.timedOut then Cancelled else FailedStatus)
              else if !r.config.definition && r.aborted then (if r.timedOut then FailedStatus else Cancelled)
              else if r.native.outcome.result.status == Completed && Truncated(r.native.outcome.result, r.config.limits) then Incomplete
              else r.native.outcome.result.status;
            runs[i].phase.status ==
              if r.config.definition && !runs[i].confirmed then Incomplete
              else if events[k].hostOk then resolved
              else FailedStatus
    ensures runs[i].config == runs[m].config
    ensures runs[i].confirmed <==>
              || events[m].Collected?
              || (events[m].Confirm? && events[m].confirmed)
              || (events[m].LateStart? && runs[m].native == Refused && events[m].inTime)
              || (!runs[m].config.definition && !events[m].Confirm? && !events[m].LateStart? && !events[m].CancelReturns?)
  {
    hide Execution, Inv, Enabled, Next, Truncated, Done;
    k := UnconfirmedIsIncomplete(runs, events, i);
    m := ResolvedBy(runs, events, k);
    ConfigStays(runs, events, k, i);
    ExecutionKeepsInv(runs, events, m);
    StepIs(runs, events, m);
    if events[m].Collected? {
      CollectedIsConfirmed(runs[m]);
      CollectedStatus(runs[m]);
    } else {
      ErrorStatus(runs[m], events[m]);
    }
  }

  lemma {:induction false} ConfigStays(runs: seq<Run>, events: seq<Event>, i: nat, j: nat)
    requires Execution(runs, events) && i <= j < |runs|
    ensures runs[i].config == runs[j].config
    decreases j
  {
    hide Enabled, Next;
    if i < j {
      ConfigStays(runs, events, i, j - 1);
      StepKeepsKind(runs[j - 1], events[j - 1]);
    }
  }

  lemma CollectedIsConfirmed(r: Run)
    requires Enabled(r, Collected)
    ensures r.native.Settled? && r.native.outcome.Fulfilled? && Next(r, Collected).confirmed
  {
    hide Truncated;
  }

  // A run is reported completed exactly when its result was collected, is a completed one of
  // which nothing was dropped, no abort overruled it, and its host ended well. What is
  // dropped is what exceeds a limit; a limit of zero, or none, is no limit.
  lemma CompletedExactly(runs: seq<Run>, events: seq<Event>, i: nat) returns (m: nat, k: nat)
    requires Execution(runs, events) && i < |runs| && runs[i].phase.Finished?
    ensures m < k < i && events[k].Finish? && !Done(runs[m]) && Done(runs[m + 1])
    ensures runs[i].phase.status == Completed <==>
              && events[m].Collected? && events[k].hostOk
              && runs[m].native.Settled? && runs[m].native.outcome.Fulfilled?
              && runs[m].native.outcome.result.status == Completed
              && (runs[m].config.definition || !runs[m].aborted)
              && KeptWhole(runs[m].native.outcome.result, runs[m].config.limits)
  {
    m, k := ReportedStatus(runs, events, i);
    if events[m].Collected? {
      TruncatedExactly(runs[m].native.outcome.result, runs[m].config.limits);
    }
    hide Execution, Truncated, KeptWhole;
  }

  // Every part keeps to the limit that is set for it.
  predicate KeptWhole(r: DriverResult, limits: Limits) {
    && (limits.outputBytes.Some? && limits.outputBytes.value != 0 ==>
          r.textBytes <= limits.outputBytes.value && (r.parsedBytes.Some? ==> r.parsedBytes.value <= limits.outputBytes.value))
    && (limits.artifactBytes.Some? && limits.artifactBytes.value != 0 ==>
          Total((n: nat) => n, r.artifactBytes) <= limits.artifactBytes.value)
  }

  lemma TruncatedExactly(r: DriverResult, limits: Limits)
    ensures Truncated(r, limits) <==> !KeptWhole(r, limits)
  {
  }

  // Native execution that is not over when a run gets its result was asked to stop first;
  // it is left alone only by an observer that is gone, by a driver that observes on its own,
  // or when the run adopted it and never attached to it.
  lemma NativeIsAskedToStop(runs: seq<Run>, events: seq<Event>, m: nat)
    requires Execution(runs, events) && m < |events| && !Done(runs[m]) && Done(runs[m + 1]) && !Over(runs[m].native)
    ensures || runs[m].observerGone
            || (runs[m].config.definition && runs[m].config.independent && !runs[m].aborted)
            || (runs[m].config.adopted && !runs[m].called)
            || (exists c :: 0 <= c <= m && events[c].CancelReturns?)
  {
    hide Inv, Execution, Done, Enabled, Next;
    StepIs(runs, events, m);
    ExecutionKeepsInv(runs, events, m);
    if runs[m].phase in {AwaitingLate, Confirming} {
      var c := CancelledBefore(runs, events, m);
    } else {
      LeftAlone(runs[m], events[m]);
    }
  }

  lemma LeftAlone(r: Run, e: Event)
    requires Inv(r) && Enabled(r, e) && !Done(r) && Done(Next(r, e)) && !Over(r.native)
    requires r.phase !in {AwaitingLate, Confirming}
    ensures || r.observerGone || (r.config.definition && r.config.independent && !r.aborted)
            || (r.config.adopted && !r.called) || e.CancelReturns?
  {
    hide Truncated;
  }

  // What a failed await leads to: native execution is asked to stop exactly when the observer is
  // there and the run was aborted, or is attached to a driver that does not observe on its own;
  // otherwise the run gets its result at once, and an observer that left never confirms it.
  lemma FailedAwait(r: Run, e: Event)
    requires Enabled(r, e)
    requires e.StartFails? || e.CollectionFails? || (e.Begun? && !e.ok) || (e.AcceptedNative? && !e.ok)
    ensures Next(r, e).phase == Cancelling <==>
              !r.observerGone && (r.aborted || (r.attached && !(r.config.definition && r.config.independent)))
    ensures Next(r, e).phase != Cancelling ==> Next(r, e).phase.Resolved?
    ensures r.observerGone ==> !Next(r, e).confirmed
    ensures Next(r, e).native == r.native && Next(r, e).called == r.called && Next(r, e).attached == r.attached
  {
    CaughtExactly(r);
    hide Caught, Resolve, ResolveError, Enabled;
    assert Next(r, e) == Caught(r);
    hide Next;
  }

  lemma CaughtExactly(r: Run)
    ensures Caught(r).phase == Cancelling <==>
              !r.observerGone && (r.aborted || (r.attached && !(r.config.definition && r.config.independent)))
    ensures Caught(r).phase != Cancelling ==> Caught(r).phase.Resolved?
    ensures r.observerGone ==> !Caught(r).confirmed
    ensures Caught(r).native == r.native && Caught(r).called == r.called && Caught(r).attached == r.attached
  {
    hide Resolve, ResolveError;
  }

  lemma {:induction false} CancelledBefore(runs: seq<Run>, events: seq<Event>, i: nat) returns (c: nat)
    requires Execution(runs, events) && i < |runs| && runs[i].phase in {AwaitingLate, Confirming}
    ensures c < i && events[c].CancelReturns?
  {
    hide Enabled, Next;
    if i == 0 {
      assert false;
    }
    WaitsAfterCancelling(runs[i - 1], events[i - 1]);
    if events[i - 1].CancelReturns? {
      c := i - 1;
    } else {
      c := CancelledBefore(runs, events, i - 1);
    }
  }

  lemma WaitsAfterCancelling(r: Run, e: Event)
    requires Enabled(r, e) && Next(r, e).phase in {AwaitingLate, Confirming}
    ensures e.CancelReturns? || r.phase in {AwaitingLate, Confirming}
  {
    hide Truncated;
  }

  // ---- Workspace leases of the backend -----------------------------------------------

  type RunId = nat
  type Workspace = string

  // A run may be executed again after recovery, so local executions have their own names.
  type Instance = nat

  // `workspace` is what a lease is taken on: none for an absent or empty identity.
  datatype Managed = Managed(runId: RunId, workspace: Option<Workspace>, run: Run)

  datatype Backend = Backend(leases: map<Workspace, RunId>, runs: map<Instance, Managed>)

  datatype BackendStep =
    | Reserve(instance: Instance, runId: RunId, workspace: Option<Workspace>, config: Config, native: Native)
    | Advance(instance: Instance, event: Event)

  predicate StepEnabled(b: Backend, step: BackendStep) {
    match step
    case Reserve(k, runId, workspace, config, native) =>
      // A held workspace refuses the run before anything is created, even for the same run id.
      k !in b.runs && MayBegin(config, native) && (workspace.Some? ==> workspace.value !in b.leases)
    case Advance(k, event) => k in b.runs && Enabled(b.runs[k].run, event)
  }

  function BackendNext(b: Backend, step: BackendStep): Backend
    requires StepEnabled(b, step)
  {
    match step
    case Reserve(k, runId, workspace, config, native) =>
      Backend(if workspace.Some? then b.leases[workspace.value := runId] else b.leases,
              b.runs[k := Managed(runId, workspace, Begin(config, native))])
    case Advance(k, event) =>
      var m := b.runs[k];
      var run := Next(m.run, event);
      Backend(if event.Finish? && run.confirmed then Released(b.leases, m) else b.leases,
              b.runs[k := m.(run := run)])
  }

  function Released(leases: map<Workspace, RunId>, m: Managed): map<Workspace, RunId> {
    if m.workspace.Some? && m.workspace.value in leases && leases[m.workspace.value] == m.runId
    then leases - {m.workspace.value} else leases
  }

  // The backend's lease table. An absent or empty workspace identity takes no lease.
  class WorkspaceLeases {
    var owners: map<Workspace, RunId>

    constructor ()
      ensures owners == map[]
    {
      owners := map[];
    }

    static predicate Leased(identity: Option<Workspace>) {
      identity.Some? && identity.value != ""
    }

    // Names the current owner when the workspace is taken.
    method Acquire(identity: Option<Workspace>, runId: RunId) returns (busy: Option<RunId>)
      modifies this
      ensures busy == if Leased(identity) && identity.value in old(owners) then Some(old(owners)[identity.value]) else None
      ensures owners == if Leased(identity) && busy.None? then old(owners)[identity.value := runId] else old(owners)
      ensures busy.Some? <==> identity.Some? && identity.value != "" && identity.value in old(owners)
      ensures identity.Some? && identity.value != "" ==>
                identity.value in owners && owners[identity.value] == if busy.Some? then busy.value else runId
      ensures identity.None? || identity.value == "" ==> owners == old(owners)
    {
      if !Leased(identity) {
        return None;
      }
      if identity.value in owners {
        return Some(owners[identity.value]);
      }
      owners := owners[identity.value := runId];
      return None;
    }

    method Release(identity: Option<Workspace>, runId: RunId)
      modifies this
      ensures forall m: Managed :: m.runId == runId && Leased(identity) && m.workspace == identity ==>
                owners == Released(old(owners), m)
      ensures !Leased(identity) ==> owners == old(owners)
      ensures forall w :: w in owners <==> w in old(owners) && !(identity == Some(w) && w != "" && old(owners)[w] == runId)
      ensures forall w :: w in owners ==> owners[w] == old(owners)[w]
    {
      if Leased(identity) && identity.value in owners && owners[identity.value] == runId {
        owners := owners - {identity.value};
      }
    }
  }

  // Until it finishes with confirmed termination, a run holds its workspace, alone.
  ghost predicate BackendInv(b: Backend) {
    RunsKeepInv(b) && HoldersHaveLeases(b) && HoldersAreAlone(b) && LeasesAreHeld(b)
  }

  ghost predicate RunsKeepInv(b: Backend) {
    forall k :: k in b.runs ==> Inv(b.runs[k].run)
  }

  ghost predicate HoldersHaveLeases(b: Backend) {
    forall k :: k in b.runs && Holds(b.runs[k]) ==> HasLease(b, b.runs[k])
  }

  ghost predicate HoldersAreAlone(b: Backend) {
    forall w, k, n :: HeldBy(b, w, k) && HeldBy(b, w, n) ==> k == n
  }

  ghost predicate LeasesAreHeld(b: Backend) {
    forall w :: w in b.leases ==> exists k :: HeldBy(b, w, k)
  }

  predicate Holds(m: Managed) {
    m.workspace.Some? && !(m.run.phase.Finished? && m.run.confirmed)
  }

  predicate HasLease(b: Backend, m: Managed)
    requires m.workspace.Some?
  {
    m.workspace.value in b.leases && b.leases[m.workspace.value] == m.runId
  }

  // Instance `k` is the one holding workspace `w`.
  predicate HeldBy(b: Backend, w: Workspace, k: Instance) {
    k in b.runs && Holds(b.runs[k]) && b.runs[k].workspace == Some(w)
  }

  lemma BackendStepKeepsInv(b: Backend, step: BackendStep)
    requires BackendInv(b) && StepEnabled(b, step)
    ensures BackendInv(BackendNext(b, step))
  {
    hide Inv, Next, Enabled, HoldersHaveLeases, HoldersAreAlone, LeasesAreHeld;
    match step
    case Reserve(k, runId, workspace, config, native) =>
      BeginInv(config, native);
      ReserveKeepsHolders(b, step);
      ReserveKeepsLeases(b, step);
    case Advance(k, event) =>
      StepKeepsInv(b.runs[k].run, event);
      OnlyFinishFinishes(b.runs[k].run, event);
      AdvanceKeepsHolders(b, k, event);
      AdvanceKeepsLeases(b, k, event);
  }

  lemma ReserveKeepsHolders(b: Backend, step: BackendStep)
    requires HoldersHaveLeases(b) && HoldersAreAlone(b) && step.Reserve? && StepEnabled(b, step)
    ensures HoldersHaveLeases(BackendNext(b, step)) && HoldersAreAlone(BackendNext(b, step))
  {
    hide Enabled;
    var b' := BackendNext(b, step);
    forall w, k | k != step.instance && HeldBy(b', w, k) ensures HeldBy(b, w, k) && step.workspace != Some(w) {
      assert HasLease(b, b.runs[k]);
    }
  }

  lemma ReserveKeepsLeases(b: Backend, step: BackendStep)
    requires LeasesAreHeld(b) && step.Reserve? && StepEnabled(b, step)
    ensures LeasesAreHeld(BackendNext(b, step))
  {
    hide Enabled;
    var b' := BackendNext(b, step);
    forall w | w in b'.leases ensures exists k :: HeldBy(b', w, k) {
      if step.workspace == Some(w) {
        assert HeldBy(b', w, step.instance);
      } else {
        var k :| HeldBy(b, w, k);
        assert HeldBy(b', w, k);
      }
    }
  }

  // How one event may move a run, as far as holding a workspace goes.
  predicate FinishesOnce(r: Run, e: Event)
    requires Enabled(r, e)
  {
    && (e.Finish? ==> Next(r, e).phase.Finished? && !r.phase.Finished?)
    && (Next(r, e).phase.Finished? ==> e.Finish? || r.phase.Finished?)
    && (r.phase.Finished? ==> Next(r, e).phase == r.phase && Next(r, e).confirmed == r.confirmed)
  }

  lemma AdvanceKeepsHolders(b: Backend, k: Instance, event: Event)
    requires HoldersHaveLeases(b) && HoldersAreAlone(b) && k in b.runs && Enabled(b.runs[k].run, event)
    requires FinishesOnce(b.runs[k].run, event)
    ensures HoldersHaveLeases(BackendNext(b, Advance(k, event))) && HoldersAreAlone(BackendNext(b, Advance(k, event)))
  {
    hide Next, Enabled;
    var b' := BackendNext(b, Advance(k, event));
    forall w, n | HeldBy(b', w, n) ensures HeldBy(b, w, n) && HasLease(b', b'.runs[n]) {
      assert HeldBy(b, w, n);
      assert HasLease(b, b.runs[n]);
      if b.runs[k].workspace == Some(w) && n != k {
        assert !HeldBy(b, w, k);
      }
    }
    forall n | n in b'.runs && Holds(b'.runs[n]) ensures HasLease(b', b'.runs[n]) {
      assert HeldBy(b', b'.runs[n].workspace.value, n);
    }
  }

  lemma AdvanceKeepsLeases(b: Backend, k: Instance, event: Event)
    requires HoldersHaveLeases(b) && LeasesAreHeld(b) && k in b.runs && Enabled(b.runs[k].run, event)
    requires FinishesOnce(b.runs[k].run, event)
    ensures LeasesAreHeld(BackendNext(b, Advance(k, event)))
  {
    hide Next, Enabled;
    var b' := BackendNext(b, Advance(k, event));
    forall w | w in b'.leases ensures exists n :: HeldBy(b', w, n) {
      var n :| HeldBy(b, w, n);
      assert HasLease(b, b.runs[n]);
      assert HeldBy(b', w, n);
    }
  }

  // Confirmed finishing happens once, at the `finish` callback.
  lemma OnlyFinishFinishes(r: Run, e: Event)
    requires Enabled(r, e)
    ensures FinishesOnce(r, e)
  {
    hide Truncated, ResolveError, Resolve, Caught, CollectionSettled;
  }

  ghost predicate BackendBehavior(states: seq<Backend>, steps: seq<BackendStep>) {
    && |states| == |steps| + 1
    && states[0] == Backend(map[], map[])
    && forall i :: 0 <= i < |steps| ==> StepEnabled(states[i], steps[i]) && states[i + 1] == BackendNext(states[i], steps[i])
  }

  lemma {:induction false} BackendKeepsInv(states: seq<Backend>, steps: seq<BackendStep>, i: nat)
    requires BackendBehavior(states, steps) && i < |states|
    ensures BackendInv(states[i])
  {
    hide BackendInv, BackendNext, StepEnabled;
    if i == 0 {
      EmptyBackendInv();
    } else {
      BackendKeepsInv(states, steps, i - 1);
      BackendStepKeepsInv(states[i - 1], steps[i - 1]);
    }
  }

  lemma EmptyBackendInv()
    ensures BackendInv(Backend(map[], map[]))
  {
  }

  // May the native side still be touching the workspace?
  predicate MayBeLive(r: Run) {
    !Over(r.native)
  }

  lemma LiveHolds(m: Managed)
    requires Inv(m.run) && m.workspace.Some? && MayBeLive(m.run)
    ensures Holds(m)
  {
  }

  // No workspace ever has two executions whose native side may still be live.
  lemma WorkspaceExclusivity(states: seq<Backend>, steps: seq<BackendStep>, i: nat, a: Instance, c: Instance)
    requires BackendBehavior(states, steps) && i < |states| && a in states[i].runs && c in states[i].runs
    requires states[i].runs[a].workspace.Some? && states[i].runs[a].workspace == states[i].runs[c].workspace
    requires MayBeLive(states[i].runs[a].run) && MayBeLive(states[i].runs[c].run)
    ensures a == c
  {
    hide BackendBehavior, Inv, MayBeLive;
    BackendKeepsInv(states, steps, i);
    LiveHolds(states[i].runs[a]);
    LiveHolds(states[i].runs[c]);
    var w := states[i].runs[a].workspace.value;
    assert HeldBy(states[i], w, a) && HeldBy(states[i], w, c);
  }

  // A lease is given up only by the finishing run that held it, and only when its native
  // execution settled, was refused or never started.
  lemma LeaseReleasedOnlyWhenOver(states: seq<Backend>, steps: seq<BackendStep>, i: nat, w: Workspace)
    requires BackendBehavior(states, steps) && i < |steps|
    requires w in states[i].leases && (w !in states[i + 1].leases || states[i + 1].leases[w] != states[i].leases[w])
    ensures steps[i].Advance? && steps[i].event.Finish? && HeldBy(states[i], w, steps[i].instance)
    ensures Over(states[i].runs[steps[i].instance].run.native)
  {
    BackendKeepsInv(states, steps, i);
    FreedByItsHolder(states[i], steps[i], w);
    assert Inv(states[i].runs[steps[i].instance].run);
  }

  lemma FreedByItsHolder(b: Backend, step: BackendStep, w: Workspace)
    requires BackendInv(b) && StepEnabled(b, step) && w in b.leases
    requires w !in BackendNext(b, step).leases || BackendNext(b, step).leases[w] != b.leases[w]
    ensures step.Advance? && step.event.Finish? && HeldBy(b, w, step.instance)
    ensures Next(b.runs[step.instance].run, step.event).confirmed
  {
    hide Inv, Next;
    var k :| HeldBy(b, w, k);
    assert step.Advance?;
    assert b.runs[step.instance].run.phase.Resolved?;
    assert Holds(b.runs[step.instance]);
  }

  // Quarantine: an execution that ended without confirmation keeps its workspace, under its
  // own run id, in every later state of the backend.
  lemma {:induction false} UnconfirmedKeepsItsWorkspace(states: seq<Backend>, steps: seq<BackendStep>, i: nat, j: nat, k: Instance)
    requires BackendBehavior(states, steps) && i <= j < |states| && k in states[i].runs
    requires EndedUnconfirmed(states[i].runs[k].run) && states[i].runs[k].workspace.Some?
    ensures k in states[j].runs && EndedUnconfirmed(states[j].runs[k].run)
    ensures states[j].runs[k].workspace == states[i].runs[k].workspace && states[j].runs[k].runId == states[i].runs[k].runId
    ensures HasLease(states[j], states[j].runs[k])
    decreases j
  {
    hide BackendInv, BackendNext, StepEnabled, HasLease, EndedUnconfirmed;
    if i < j {
      UnconfirmedKeepsItsWorkspace(states, steps, i, j - 1, k);
      EndedStaysEnded(states[j - 1], steps[j - 1], k);
    }
    BackendKeepsInv(states, steps, j);
    EndedHasLease(states[j], k);
  }

  predicate EndedUnconfirmed(r: Run) {
    r.phase.Finished? && !r.confirmed
  }

  lemma EndedStaysEnded(b: Backend, step: BackendStep, k: Instance)
    requires StepEnabled(b, step) && k in b.runs && EndedUnconfirmed(b.runs[k].run)
    ensures k in BackendNext(b, step).runs && EndedUnconfirmed(BackendNext(b, step).runs[k].run)
    ensures BackendNext(b, step).runs[k].workspace == b.runs[k].workspace && BackendNext(b, step).runs[k].runId == b.runs[k].runId
  {
    hide Next, Enabled;
    if step.Advance? {
      OnlyFinishFinishes(b.runs[step.instance].run, step.event);
    }
  }

  lemma EndedHasLease(b: Backend, k: Instance)
    requires BackendInv(b) && k in b.runs && EndedUnconfirmed(b.runs[k].run) && b.runs[k].workspace.Some?
    ensures HasLease(b, b.runs[k])
  {
    hide Inv;
    assert Holds(b.runs[k]);
  }
}
