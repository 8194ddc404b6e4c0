/**
  One acknowledged change of a durable record, as the rest of the runtime may think of it:
  atomic, with three possible reports. The writer also keeps a cached copy, which can be
  older than the record after a write that took effect although it was reported as failed.
 */
module DurableUpdate {
  import opened Wrappers

  datatype Outcome =
    | Committed                        // took effect, reported as success
    | FailedBefore(refreshed: bool)    // no effect; the cache may have caught up meanwhile
    | FailedAfter                      // took effect, reported as failure

  datatype Applied<D> = Applied(durable: D, cache: D, ok: bool)

  /** `changed` is the proposed new record, or None when the change itself threw. */
  function Apply<D>(durable: D, cache: D, changed: Option<D>, outcome: Outcome): (r: Applied<D>)
    ensures r.ok ==> changed == Some(r.durable) && r.cache == r.durable
    ensures r.durable == durable || changed == Some(r.durable)
    ensures !r.ok ==> r.cache == cache || r.cache == durable
  {
    match outcome
    case Committed =>
      if changed.Some? then Applied(changed.value, changed.value, true) else Applied(durable, durable, false)
    case FailedBefore(refreshed) =>
      Applied(durable, if refreshed then durable else cache, false)
    case FailedAfter =>
      Applied(if changed.Some? then changed.value else durable, durable, false)
  }
}
