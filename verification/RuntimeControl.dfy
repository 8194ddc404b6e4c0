/**
  The serialized writer of a session's control record over revision-checked storage that may
  fail before a write, or after it. A failed write leaves an intent behind; the next update
  first settles that intent: an intent that never reached storage is forgotten, an intent
  that did is written again until storage acknowledges it.

  The result: from outside, every update is one atomic step of `DurableUpdate.Apply`.
 */
module RuntimeControls {
  import opened Wrappers
  import opened DurableUpdate

  datatype Record<D> = Record(revision: nat, data: D)

  datatype WriteFault = Acknowledged | LostBeforeWrite | LostAfterWrite

  // What the environment does to one update: storage faults at each of its accesses.
  datatype Faults = Faults(readFails: bool, rewrite: WriteFault, write: WriteFault)

  datatype ControlError =
    | StorageFailed      // the lease reported a failure
    | ChangeRefused      // the caller's change threw
    | CannotReconcile    // storage holds neither the old record nor the intent

  // Exclusive lease on one stored record.
  class Lease<D(==)> {
    var stored: Record<D>
    var released: bool

    constructor (stored: Record<D>)
      ensures this.stored == stored && !released
    {
      this.stored, released := stored, false;
    }

    method Read(fails: bool) returns (r: Result<Record<D>, ControlError>)
      ensures r == if fails || released then Err(StorageFailed) else Ok(stored)
    {
      return if fails || released then Err(StorageFailed) else Ok(stored);
    }

    // Compare-and-set on the revision; the fault decides whether and how it is reported.
    method Write(data: D, expectedRevision: nat, fault: WriteFault) returns (r: Result<Record<D>, ControlError>)
      modifies this`stored
      ensures released || stored.revision == old(stored.revision) || stored == Record(expectedRevision + 1, data)
      ensures r.Ok? ==> !released && old(stored.revision) == expectedRevision && r.value == stored == Record(expectedRevision + 1, data)
      ensures stored == if !released && old(stored.revision) == expectedRevision && fault != LostBeforeWrite
                        then Record(expectedRevision + 1, data) else old(stored)
      ensures r.Ok? <==> !released && old(stored.revision) == expectedRevision && fault == Acknowledged
      ensures r.Err? ==> r.error == StorageFailed
    {
      if released || stored.revision != expectedRevision || fault == LostBeforeWrite {
        return Err(StorageFailed);
      }
      stored := Record(expectedRevision + 1, data);
      return if fault == Acknowledged then Ok(stored) else Err(StorageFailed);
    }
  }

  datatype Pending<D> = Pending(before: Record<D>, data: D, acknowledgementRequired: bool)

  class RuntimeControl<D(==)> {
    const lease: Lease<D>
    var record: Record<D>                   // cached record
    var pendingWrite: Option<Pending<D>>

    constructor (lease: Lease<D>)
      ensures this.lease == lease && record == lease.stored && Valid()
    {
      this.lease, record, pendingWrite := lease, lease.stored, None;
    }

    // Is the pending intent already what storage holds?
    ghost predicate Landed(p: Pending<D>)
      reads lease
    {
      lease.stored == Record(p.before.revision + 1, p.data)
    }

    ghost predicate Valid()
      reads this, lease
    {
      match pendingWrite
      case None => record == lease.stored
      case Some(p) =>
        && (lease.stored == p.before || Landed(p))
        && (if p.acknowledgementRequired then p.before.data == p.data else record == p.before)
    }

    /** Update: settle an unfinished intent, then apply `change` to the up-to-date record. */
    method Update(change: D -> Option<D>, faults: Faults) returns (r: Result<(), ControlError>)
      requires Valid()
      modifies this`record, this`pendingWrite, lease`stored
      ensures Valid()
      // refines the atomic update, whatever storage does
      ensures exists outcome ::
                Applied(lease.stored.data, record.data, r.Ok?) ==
                Apply(old(lease.stored.data), old(record.data), change(old(lease.stored.data)), outcome)
      // in plain terms: success means changed, stored and cached; a failure leaves the old data
      // or the changed data
      ensures r.Ok? ==> change(old(lease.stored.data)) == Some(lease.stored.data) && record == lease.stored
      ensures lease.stored.data == old(lease.stored.data) || change(old(lease.stored.data)) == Some(lease.stored.data)
      ensures r == Err(ChangeRefused) ==> change(old(lease.stored.data)).None? && lease.stored.data == old(lease.stored.data)
      // under an exclusive lease an intent is always recognised
      ensures r != Err(CannotReconcile)
      ensures lease.released ==> r.Err? && lease.stored == old(lease.stored)
      ensures !lease.released && faults == Faults(false, Acknowledged, Acknowledged) && change(old(lease.stored.data)).Some? ==> r.Ok?
      ensures old(lease.stored.revision) <= lease.stored.revision
    {
      ghost var durable, cache := lease.stored.data, record.data;
      r := ReconcileWrite(faults.readFails, faults.rewrite);
      if r.Err? {
        assert Applied(lease.stored.data, record.data, false) == Apply(durable, cache, change(durable), FailedBefore(false));
        return;
      }
      var changed := change(record.data);
      if changed.None? {
        assert Applied(lease.stored.data, record.data, false) == Apply(durable, cache, change(durable), FailedBefore(true));
        return Err(ChangeRefused);
      }
      pendingWrite := Some(Pending(record, changed.value, false));
      var written := lease.Write(changed.value, record.revision, faults.write);
      if written.Err? {
        if lease.stored.data == changed.value && Landed(pendingWrite.value) {
          assert Applied(lease.stored.data, record.data, false) == Apply(durable, cache, change(durable), FailedAfter);
        } else {
          assert Applied(lease.stored.data, record.data, false) == Apply(durable, cache, change(durable), FailedBefore(true));
        }
        return Err(written.error);
      }
      record := written.value;
      pendingWrite := None;
      assert Applied(lease.stored.data, record.data, true) == Apply(durable, cache, change(durable), Committed);
      return Ok(());
    }

    // Settles the intent of an earlier failed write; never changes what storage says.
    method ReconcileWrite(readFails: bool, fault: WriteFault) returns (r: Result<(), ControlError>)
      requires Valid()
      modifies this`record, this`pendingWrite, lease`stored
      ensures Valid()
      ensures lease.stored.data == old(lease.stored.data) && lease.stored.revision >= old(lease.stored.revision)
      ensures r.Ok? ==> pendingWrite == None
      ensures r.Err? ==> r.error == StorageFailed && record == old(record) && old(pendingWrite).Some?
      ensures !lease.released && !readFails && fault == Acknowledged ==> r.Ok?
      ensures lease.released ==> lease.stored == old(lease.stored)
    {
      if pendingWrite.None? {
        return Ok(());
      }
      var pending := pendingWrite.value;
      var read := lease.Read(readFails);
      if read.Err? {
        return Err(read.error);
      }
      var current := read.value;
      if current == pending.before {
        if !pending.acknowledgementRequired {
          pendingWrite := None;
          return Ok(());
        }
      } else if current.revision != pending.before.revision + 1 || current.data != pending.data {
        return Err(CannotReconcile);
      }
      pendingWrite := Some(Pending(current, pending.data, true));
      var written := lease.Write(pending.data, current.revision, fault);
      if written.Err? {
        return Err(written.error);
      }
      record := written.value;
      pendingWrite := None;
      return Ok(());
    }
  }
}
