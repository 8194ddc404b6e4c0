/**
  The durable control record of a session: which run is active, what became of every run,
  and which request asked for it. Each function below is the body of one `control.update`.
 */
module SessionLedger {
  import opened Wrappers

  type RunId = nat
  type RequestId = string
  // Canonical request content. Digests are injective, so a payload stands for its digest.
  type Payload = string
  type RunResult = string

  // Sequence numbers reserved for one incarnation of a run's event stream.
  const WINDOW: nat := 1_000_000
  const MAX_REQUESTS: nat := 1024

  datatype RunState = Submitting | Observing | Unknown | Rejected | Terminal

  datatype RunRecord = RunRecord(
    state: RunState, payload: Option<Payload>, highWater: Option<nat>, result: Option<RunResult>)

  datatype RequestRecord = RequestRecord(digest: Payload, runId: RunId, rejected: bool)

  datatype Ledger = Ledger(
    active: Option<RunId>, runs: map<RunId, RunRecord>, requests: map<RequestId, RequestRecord>)

  predicate IsOpen(r: RunRecord) {
    r.state in {Submitting, Observing, Unknown}
  }

  predicate HasOpen(l: Ledger, runId: RunId) {
    runId in l.runs && IsOpen(l.runs[runId])
  }

  function EmptyLedger(): Ledger {
    Ledger(None, map[], map[])
  }

  function Remember(l: Ledger, request: Option<RequestId>, entry: RequestRecord): map<RequestId, RequestRecord> {
    if request.Some? then l.requests[request.value := entry] else l.requests
  }

  // Record the intent to submit, before any native work.
  function AdmitChange(l: Ledger, runId: RunId, request: Option<RequestId>, payload: Payload): Option<Ledger> {
    if |l.requests| >= MAX_REQUESTS || l.active.Some? then None
    else Some(Ledger(
                Some(runId),
                l.runs[runId := RunRecord(Submitting, Some(payload), Some(WINDOW), None)],
                Remember(l, request, RequestRecord(payload, runId, false))))
  }

  // The run could not be started; nothing native happened.
  function RejectChange(l: Ledger, runId: RunId, request: Option<RequestId>, payload: Payload): Ledger {
    Ledger(
      None,
      l.runs[runId := RunRecord(Rejected, None, None, None)],
      Remember(l, request, RequestRecord(payload, runId, true)))
  }

  function SetState(l: Ledger, runId: RunId, state: RunState): Ledger {
    if runId in l.runs then l.(runs := l.runs[runId := l.runs[runId].(state := state)]) else l
  }

  // The native side accepted the input.
  function AcceptChange(l: Ledger, runId: RunId): Ledger {
    SetState(l, runId, Observing)
  }

  // Native termination is not proven.
  function UnknownChange(l: Ledger, runId: RunId): Ledger {
    if runId in l.runs then SetState(l, runId, Unknown)
    else l.(runs := l.runs[runId := RunRecord(Unknown, None, None, None)])
  }

  function ResultChange(l: Ledger, runId: RunId, result: RunResult): Ledger {
    Ledger(
      if l.active == Some(runId) then None else l.active,
      l.runs[runId := RunRecord(Terminal, None, None, Some(result))],
      l.requests)
  }

  // Reserve the sequence window of a recovered incarnation.
  function WindowChange(l: Ledger, runId: RunId, previous: nat): Option<Ledger> {
    if runId !in l.runs then None
    else Some(l.(runs := l.runs[runId := l.runs[runId].(highWater := Some(previous + WINDOW))]))
  }
}
