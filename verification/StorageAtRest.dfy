/**
 What a request does to a blob at rest when it runs alone and meets no failure: it
 reads, moves or deletes the blob if StoreBlob returned it and no delete has taken
 effect, and finds nothing otherwise.  This is Storage as File Objects uses it
 (`BlobStore`).
 */
module StorageAtRest {
  import opened Bytes
  import opened Wrappers
  import opened StorageMachine
  import opened StorageSafety
  import opened StorageTheorems
  import opened StorageAlone
  import F = FileObjects
  import P = Permissions

  // ----- Records name configured policies only -----

  predicate ThreadConfigured(cfg: Config, t: Thread) {
    match t
    case Storing(policyId, _, _, _) => policyId in cfg.policies
    case Moving(to, pc) =>
      (match pc
       case MoveRead(r) => {r.policyId, to} <= cfg.policies
       case MoveFetched(r, _) => {r.policyId, to} <= cfg.policies
       case MoveWritten(r) => {r.policyId, to} <= cfg.policies
       case MoveUndo(r) => {r.policyId, to} <= cfg.policies
       case MoveSwitched(r) => {r.policyId, to} <= cfg.policies
       case _ => true)
    case Deleting(pc) =>
      (match pc
       case DeleteRead(r) => r.policyId in cfg.policies
       case CopyErased(r) => r.policyId in cfg.policies
       case KeyShredded(r) => r.policyId in cfg.policies
       case Tombstone(r) => r.policyId in cfg.policies
       case _ => true)
    case Reading(_, _) => true
  }

  ghost predicate Configured(cfg: Config, b: Blob) {
    && (b.record.Some? ==> b.record.value.policyId in cfg.policies)
    && forall tid :: tid in b.threads ==> ThreadConfigured(cfg, b.threads[tid])
  }

  lemma NextConfigured(cfg: Config, b: Blob, tid: nat, ok: bool)
    requires Configured(cfg, b) && tid in b.threads
    ensures ThreadConfigured(cfg, Next(cfg, b, b.threads[tid], ok))
  {
    assert ThreadConfigured(cfg, b.threads[tid]);
  }

  lemma RecordConfigured(cfg: Config, b: Blob, tid: nat, ok: bool)
    requires Configured(cfg, b) && tid in b.threads
    ensures var op := OpOf(cfg, b, tid, ok); op.PutRecord? || op.Bury? ==> op.r.policyId in cfg.policies
  {
    assert ThreadConfigured(cfg, b.threads[tid]);
  }

  lemma StepConfigured(cfg: Config, b: Blob, step: Step)
    requires Configured(cfg, b) && Enabled(cfg, b, step)
    ensures Configured(cfg, Apply(cfg, b, step))
  {
    if step.Go? {
      NextConfigured(cfg, b, step.tid, step.ok);
      RecordConfigured(cfg, b, step.tid, step.ok);
    }
  }

  lemma {:induction false} RunConfigured(cfg: Config, sys: System, steps: seq<(string, Step)>, ref: string)
    requires Runnable(cfg, sys, steps) && Configured(cfg, BlobAt(sys, ref))
    ensures Configured(cfg, BlobAt(Run(cfg, sys, steps), ref))
    decreases |steps|
  {
    if steps != [] {
      var (r, step) := steps[0];
      if r == ref {
        StepConfigured(cfg, BlobAt(sys, r), step);
      }
      RunConfigured(cfg, sys[r := Apply(cfg, BlobAt(sys, r), step)], steps[1..], ref);
    }
  }

  // ----- At rest -----

  /** The request that stored the blob has answered. */
  predicate StoreAnswered(b: Blob) {
    b.origin.Some? && b.origin.value.storer in b.threads &&
    b.threads[b.origin.value.storer].Storing? && b.threads[b.origin.value.storer].spc.StoreDone?
  }

  /** Nobody holds the lock and StoreBlob has answered: the blob is there, or its key is gone. */
  lemma RestingBlob(cfg: Config, steps: seq<(string, Step)>, ref: string)
    requires Runnable(cfg, map[], steps)
    requires var b := BlobAt(Run(cfg, map[], steps), ref); b.lock.None? && StoreAnswered(b)
    ensures var b := BlobAt(Run(cfg, map[], steps), ref);
            && Inv(b) && Configured(cfg, b)
            && (if b.returned && b.deleter.None? then
                  && b.record.Some? && !b.record.value.deleted && KeyUsable(b)
                  && b.record.value.policyId in b.copies && OriginalCopy(b, b.copies[b.record.value.policyId])
                else KeyGone(b) && (b.returned ==> b.record.Some? && b.record.value.deleted))
  {
    Reached(cfg, steps, ref);
    RunConfigured(cfg, map[], steps, ref);
    var b := BlobAt(Run(cfg, map[], steps), ref);
    assert ThreadOk(b, b.origin.value.storer, b.threads[b.origin.value.storer]);
  }

  /** Storage has the blob: StoreBlob returned it and no delete has taken effect. */
  predicate There(b: Blob) {
    b.returned && b.deleter.None?
  }

  /**
   A blob at rest can be retrieved exactly while it is there: a permitted read that
   runs alone with no call failing answers the bytes stored if StoreBlob returned
   the blob and no delete has taken effect, and nothing otherwise.
   */
  lemma UndisturbedRead(cfg: Config, steps: seq<(string, Step)>, ref: string, tid: nat)
    requires Runnable(cfg, map[], steps)
    requires var b := BlobAt(Run(cfg, map[], steps), ref);
             && b.lock.None? && StoreAnswered(b)
             && tid in b.threads && b.threads[tid].Reading? && (b.threads[tid].rpc.ReadBegun? || b.threads[tid].rpc.ReadChecked?)
    ensures var b := BlobAt(Run(cfg, map[], steps), ref);
            Alone(cfg, b, tid, ALL_WELL, 6) ==
            b.(threads := b.threads[tid := b.threads[tid].(rpc := ReadDone(if There(b) then Some(b.origin.value.data) else None))])
  {
    RestingBlob(cfg, steps, ref);
    ReadAlone(cfg, BlobAt(Run(cfg, map[], steps), ref), tid, ALL_WELL);
  }

  /** The copy at `policyId` opens to the bytes that were stored. */
  predicate WholeAt(b: Blob, policyId: string) {
    b.origin.Some? && policyId in b.copies && Opens(b, b.copies[policyId]) == Some(b.origin.value.data)
  }

  /** The record names the new policy, whose backend opens to the bytes stored, and the old one's holds nothing. */
  predicate LandsAt(b: Blob, b': Blob, to: string) {
    && b.record.Some? && b'.record == Some(b.record.value.(policyId := to)) && WholeAt(b', to)
    && (to != b.record.value.policyId ==> b.record.value.policyId !in b'.copies)
  }

  /** A permitted move of a stored blob that runs alone with no call failing lands exactly if no delete has taken effect. */
  lemma UndisturbedMove(cfg: Config, steps: seq<(string, Step)>, ref: string, tid: nat, to: string)
    requires Runnable(cfg, map[], steps) && to in cfg.policies
    requires var b := BlobAt(Run(cfg, map[], steps), ref);
             && b.lock.None? && StoreAnswered(b) && b.returned
             && tid in b.threads && (b.threads[tid] == Moving(to, MoveBegun) || b.threads[tid] == Moving(to, MoveChecked))
    ensures var b := BlobAt(Run(cfg, map[], steps), ref);
            var b' := Alone(cfg, b, tid, ALL_WELL, 9);
            if There(b) then LandsAt(b, b', to) && b'.threads == b.threads[tid := Moving(to, MoveDone(Moved))]
            else b' == b.(threads := b.threads[tid := Moving(to, MoveDone(MoveNotFound))])
  {
    RestingBlob(cfg, steps, ref);
    MoveAlone(cfg, BlobAt(Run(cfg, map[], steps), ref), tid, to, ALL_WELL);
  }

  /**
   A permitted delete of a stored blob that runs alone with no call failing takes
   effect exactly when none has before.  It leaves no copy at the record's policy and
   no key, and a tombstone with the policy's way of deleting: under a physical-delete
   policy the copy is erased first, under the others the key is shredded.
   */
  lemma UndisturbedDelete(cfg: Config, steps: seq<(string, Step)>, ref: string, tid: nat)
    requires Runnable(cfg, map[], steps)
    requires var b := BlobAt(Run(cfg, map[], steps), ref);
             && b.lock.None? && StoreAnswered(b) && b.returned
             && tid in b.threads && (b.threads[tid] == Deleting(DeleteBegun) || b.threads[tid] == Deleting(DeleteChecked))
    ensures var b := BlobAt(Run(cfg, map[], steps), ref);
            var b' := Alone(cfg, b, tid, ALL_WELL, 8);
            if There(b) then
              && tid in b'.threads && b'.threads[tid] == Deleting(DeleteDone(Deleted))
              && b.record.Some? && b'.copies == b.copies - {b.record.value.policyId} && KeyGone(b')
              && b'.record == Some(Record(b.record.value.policyId, true,
                                          if b.record.value.policyId in cfg.physical then "physical_delete" else "crypto_shred"))
            else b' == b.(threads := b.threads[tid := Deleting(DeleteDone(AlreadyDeleted))])
  {
    RestingBlob(cfg, steps, ref);
    DeleteAlone(cfg, BlobAt(Run(cfg, map[], steps), ref), tid, ALL_WELL);
  }

  /** A StoreBlob that runs alone with no call failing answers success, and the blob is whole at the policy asked for. */
  lemma UndisturbedStore(cfg: Config, tid: nat, policyId: string, key: nat, data: ByteString)
    requires policyId in cfg.policies && data != []
    ensures Enabled(cfg, Unborn, BeginStore(tid, policyId, key, data))
    ensures var b' := Alone(cfg, Apply(cfg, Unborn, BeginStore(tid, policyId, key, data)), tid, ALL_WELL, 8);
            && b'.threads == map[tid := Storing(policyId, key, data, StoreDone(true))] && There(b') && StoreAnswered(b')
            && b'.record == Some(Record(policyId, false, "")) && b'.copies.Keys == {policyId}
            && WholeAt(b', policyId) && b'.origin.value.data == data && b'.granted && b'.lock.None?
  {
    StorageAlone.StoreAlone(cfg, tid, policyId, key, data, ALL_WELL);
  }

  // ----- Storage as File Objects uses it -----

  /** The two sets of `BlobStore` agree with this blob. */
  predicate Reflects(b: Blob, ref: string, stored: set<string>, deleted: set<string>) {
    (ref in stored <==> b.returned) && (ref in deleted <==> b.returned && b.deleter.Some?)
  }

  /** What `BlobStore` answers without failures is what this machine does for a request that runs alone. */
  lemma BlobStoreIsStorageAtRest(cfg: Config, steps: seq<(string, Step)>, ref: string, reader: nat, deleter: nat,
                                 p: P.State, subject: string, stored: set<string>, deleted: set<string>)
    requires Runnable(cfg, map[], steps)
    requires var b := BlobAt(Run(cfg, map[], steps), ref);
             && b.lock.None? && StoreAnswered(b) && Reflects(b, ref, stored, deleted)
             && reader in b.threads && b.threads[reader].Reading? && b.threads[reader].rpc.ReadChecked?
             && deleter in b.threads && b.threads[deleter] == Deleting(DeleteChecked)
    ensures var b := BlobAt(Run(cfg, map[], steps), ref);
            F.Retrievable(p, subject, ref, stored, deleted) <==>
              && P.Check(p, subject, F.RETRIEVE_BLOB, F.BlobRes(ref)) == Ok(true)
              && reader in Alone(cfg, b, reader, ALL_WELL, 6).threads
              && Alone(cfg, b, reader, ALL_WELL, 6).threads[reader].Reading?
              && Alone(cfg, b, reader, ALL_WELL, 6).threads[reader].rpc == ReadDone(Some(b.origin.value.data))
    ensures var b := BlobAt(Run(cfg, map[], steps), ref);
            ref in stored ==>
              (F.Deletable(p, subject, ref, stored, deleted) <==>
                && P.Check(p, subject, "storage.delete_blob", F.BlobRes(ref)) == Ok(true)
                && deleter in Alone(cfg, b, deleter, ALL_WELL, 8).threads
                && Alone(cfg, b, deleter, ALL_WELL, 8).threads[deleter] == Deleting(DeleteDone(Deleted)))
  {
    UndisturbedRead(cfg, steps, ref, reader);
    if ref in stored {
      UndisturbedDelete(cfg, steps, ref, deleter);
    }
  }
}
