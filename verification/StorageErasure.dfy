/**
 How a blob was deleted, over every run: a tombstone says which of the two ways its
 policy has, and a physical delete has left no copy there.
 */
module StorageErasure {
  import opened Wrappers
  import opened StorageMachine
  import opened StorageSafety
  import opened StorageTheorems

  /** The tombstone's mechanism is its policy's, and no copy is left where the delete is physical. */
  predicate Honest(cfg: Config, b: Blob, r: Record) {
    || (r.mechanism == "physical_delete" && r.policyId in cfg.physical && r.policyId !in b.copies)
    || (r.mechanism == "crypto_shred" && r.policyId !in cfg.physical)
  }

  predicate DeleterHonest(cfg: Config, b: Blob, pc: DeletePc) {
    match pc
    case CopyErased(r) => r.policyId in cfg.physical && r.policyId !in b.copies
    case KeyShredded(r) => r.policyId !in cfg.physical
    case Tombstone(r) => Honest(cfg, b, r)
    case _ => true
  }

  /** The holder of the lock, if it is deleting, and the record, if it is a tombstone. */
  predicate AllHonest(cfg: Config, b: Blob) {
    && (b.record.Some? && b.record.value.deleted ==> Honest(cfg, b, b.record.value))
    && (b.lock.Some? && b.lock.value in b.threads && b.threads[b.lock.value].Deleting? ==>
          DeleterHonest(cfg, b, b.threads[b.lock.value].dpc))
  }

  /** StoreBlob writes its copy before anyone else has anything to do with the blob. */
  lemma StorerWritesFirst(b: Blob, tid: nat)
    requires Inv(b) && tid in b.threads && b.threads[tid].Storing? && b.threads[tid].spc.StoreBegun?
    ensures b.lock.None? && b.record.None?
  {
    assert ThreadOk(b, tid, b.threads[tid]);
  }

  lemma StoreHonest(cfg: Config, b: Blob, tid: nat, ok: bool)
    requires Inv(b) && AllHonest(cfg, b) && Enabled(cfg, b, Go(tid, ok)) && b.threads[tid].Storing?
    ensures AllHonest(cfg, Apply(cfg, b, Go(tid, ok)))
  {
    assert ThreadOk(b, tid, b.threads[tid]);
    if b.threads[tid].spc.StoreBegun? {
      StorerWritesFirst(b, tid);
    }
  }

  /** A move that is about to write, copy or record, has seen no tombstone. */
  lemma MoverSeesNone(b: Blob, tid: nat)
    requires Inv(b) && tid in b.threads && b.threads[tid].Moving?
    requires b.threads[tid].mpc.MoveFetched? || b.threads[tid].mpc.MoveSwitched?
    ensures b.lock == Some(tid) && NoTombstone(b) && !b.threads[tid].mpc.r.deleted
  {
    assert ThreadOk(b, tid, b.threads[tid]);
    assert b.origin.None? ==> NothingThere(b.threads[tid]);
    ActingThread(b, tid);
  }

  /** What a move does apart from writing takes nothing away from a tombstone. */
  lemma KeepsHonest(cfg: Config, b: Blob, op: Op, tid: nat, t: Thread)
    requires AllHonest(cfg, b) && !op.Write? && !op.PutRecord? && !op.Bury?
    requires (op.Lock? ==> op.tid == tid) && (b.lock == Some(tid) || op.Lock? ==> !t.Deleting?)
    ensures AllHonest(cfg, At(b, op, tid, t))
  {
  }

  lemma MoveHonest(cfg: Config, b: Blob, tid: nat, ok: bool)
    requires Inv(b) && AllHonest(cfg, b) && Enabled(cfg, b, Go(tid, ok)) && b.threads[tid].Moving?
    ensures AllHonest(cfg, Apply(cfg, b, Go(tid, ok)))
  {
    var t := b.threads[tid];
    if t.mpc.MoveFetched? || t.mpc.MoveSwitched? {
      MoverSeesNone(b, tid);
    } else {
      KeepsHonest(cfg, b, MoveOp(tid, t, ok), tid, t.(mpc := MoveNext(cfg, b, t, ok)));
    }
  }

  lemma DeleteHonest(cfg: Config, b: Blob, tid: nat, ok: bool)
    requires Inv(b) && AllHonest(cfg, b) && Enabled(cfg, b, Go(tid, ok)) && b.threads[tid].Deleting?
    ensures AllHonest(cfg, Apply(cfg, b, Go(tid, ok)))
  {
    assert ThreadOk(b, tid, b.threads[tid]);
  }

  lemma StepHonest(cfg: Config, b: Blob, step: Step)
    requires Inv(b) && AllHonest(cfg, b) && Enabled(cfg, b, step)
    ensures AllHonest(cfg, Apply(cfg, b, step))
  {
    if step.Go? {
      var t := b.threads[step.tid];
      if t.Storing? {
        StoreHonest(cfg, b, step.tid, step.ok);
      } else if t.Moving? {
        MoveHonest(cfg, b, step.tid, step.ok);
      } else if t.Deleting? {
        DeleteHonest(cfg, b, step.tid, step.ok);
      }
    }
  }

  lemma {:induction false} RunHonest(cfg: Config, sys: System, steps: seq<(string, Step)>, ref: string)
    requires Runnable(cfg, sys, steps) && Inv(BlobAt(sys, ref)) && AllHonest(cfg, BlobAt(sys, ref))
    ensures AllHonest(cfg, BlobAt(Run(cfg, sys, steps), ref))
    decreases |steps|
  {
    if steps != [] {
      var (r, step) := steps[0];
      if r == ref {
        StepKeeps(cfg, BlobAt(sys, r), step);
        StepHonest(cfg, BlobAt(sys, r), step);
      }
      RunHonest(cfg, sys[r := Apply(cfg, BlobAt(sys, r), step)], steps[1..], ref);
    }
  }

  /**
   Whatever runs beside it and whichever calls fail: a blob deleted under a
   physical-delete policy says so and has no copy there, and one deleted under any
   other policy says that its key was shredded.
   */
  lemma TombstonesAreHonest(cfg: Config, steps: seq<(string, Step)>, ref: string)
    requires Runnable(cfg, map[], steps)
    ensures var b := BlobAt(Run(cfg, map[], steps), ref);
            b.record.Some? && b.record.value.deleted ==>
              if b.record.value.policyId in cfg.physical then
                b.record.value.mechanism == "physical_delete" && b.record.value.policyId !in b.copies
              else b.record.value.mechanism == "crypto_shred"
  {
    assert Inv(Unborn);
    RunHonest(cfg, map[], steps, ref);
  }
}
