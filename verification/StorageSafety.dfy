/** What holds of every blob in every interleaving of the storage machine. */
module StorageSafety {
  import opened Wrappers
  import opened StorageMachine

  /** The thread is between taking and releasing the blob's lock. */
  predicate HoldsLock(t: Thread) {
    (t.Moving? && !t.mpc.MoveBegun? && !t.mpc.MoveChecked? && !t.mpc.MoveDone?) ||
    (t.Deleting? && !t.dpc.DeleteBegun? && !t.dpc.DeleteChecked? && !t.dpc.DeleteDone?)
  }

  /** Who is denied never gets as far as the lock. */
  predicate DeniedInside(t: Thread) {
    (t.Moving? && t.mpc == MoveUnlock(MoveDenied)) || (t.Deleting? && t.dpc == DeleteUnlock(DeleteDenied))
  }

  /** The thread has written the blob's tombstone. */
  predicate WroteTombstone(t: Thread) {
    t.Deleting? &&
    match t.dpc
    case DeleteRecorded => true
    case DeleteUnlock(result) => result.Deleted? || result.DeleteUnaudited?
    case DeleteDone(result) => result.Deleted? || result.DeleteUnaudited?
    case _ => false
  }

  predicate OriginalCopy(b: Blob, s: Sealed) {
    b.origin.Some? && s == Sealed(b.origin.value.key, b.origin.value.data)
  }

  ghost predicate AllOriginal(b: Blob) {
    forall p :: p in b.copies ==> OriginalCopy(b, b.copies[p])
  }

  predicate KeyUsable(b: Blob) {
    b.keyHeld && b.keyLive
  }

  predicate KeyGone(b: Blob) {
    !b.keyHeld && !b.keyLive
  }

  // ----- Threads -----

  predicate LockMatches(b: Blob, tid: nat, t: Thread) {
    && (HoldsLock(t) <==> b.lock == Some(tid)) && (WroteTombstone(t) ==> b.deleter == Some(tid))
    && !DeniedInside(t)
  }

  predicate ReaderOk(b: Blob, t: Thread)
    requires t.Reading?
  {
    && (t.afterDelete ==> b.deleter.Some? && (t.rpc.ReadBegun? || t.rpc.ReadChecked? || t.rpc == ReadDone(None)))
    && match t.rpc
       case Fetched(s) => OriginalCopy(b, s)
       case GotKey(s) => OriginalCopy(b, s)
       case Opened(data) => b.origin.Some? && data == b.origin.value.data
       case ReadDone(Some(data)) => b.origin.Some? && data == b.origin.value.data
       case _ => true
  }

  /** There is one StoreBlob for a blob, and the flags of the blob say how far it went. */
  predicate StoringOk(b: Blob, tid: nat, t: Thread)
    requires t.Storing?
  {
    && b.origin == Some(Origin(tid, t.key, t.data))
    && match t.spc
       case Granted => b.granted && !b.rolledBack && !b.returned
       case UndoCopy => b.rolledBack && !b.returned
       case UndoRecord => b.rolledBack && !b.returned
       case UndoKey => b.rolledBack && !b.returned
       case StoreDone(ok) => b.returned == ok && if ok then b.granted && !b.rolledBack else (b.granted ==> b.rolledBack) && KeyGone(b)
       case _ => !b.granted && !b.rolledBack && !b.returned
  }

  predicate ThreadOk(b: Blob, tid: nat, t: Thread) {
    && LockMatches(b, tid, t)
    && (t.Reading? ==> ReaderOk(b, t))
    && (t.Storing? ==> StoringOk(b, tid, t))
  }

  ghost predicate ThreadsOk(b: Blob) {
    forall tid :: tid in b.threads ==> ThreadOk(b, tid, b.threads[tid])
  }

  // ----- The blob before its owner's grant -----

  /** Requests on a reference that was never generated find nothing. */
  predicate NothingThere(t: Thread) {
    match t
    case Storing(_, _, _, _) => false
    case Moving(_, pc) => pc in {MoveBegun, MoveChecked, MoveLocked, MoveUnlock(MoveNotFound)} || pc.MoveDone?
    case Deleting(pc) => pc in {DeleteBegun, DeleteChecked, DeleteLocked, DeleteUnlock(DeleteNotFound)} || pc.DeleteDone?
    case Reading(_, _) => true
  }

  ghost predicate Unused(b: Blob) {
    && b.copies == map[] && b.record.None? && KeyGone(b)
    && !b.granted && !b.returned && !b.rolledBack && b.deleter.None? && !b.doubleFailed
    && forall tid :: tid in b.threads ==> NothingThere(b.threads[tid])
  }

  /** Until the grant StoreBlob is alone, and each of its steps adds one piece. */
  predicate StoreOk(b: Blob, t: Thread) {
    && t.Storing? && b.deleter.None? && !b.doubleFailed && b.lock.None?
    && match t.spc
       case StoreBegun => b.copies == map[] && b.record.None? && KeyGone(b)
       case Written => b.copies.Keys == {t.policyId} && b.record.None? && KeyGone(b)
       case Recorded => b.copies.Keys == {t.policyId} && b.record == Some(Record(t.policyId, false, "")) && KeyGone(b)
       case Keyed => b.copies.Keys == {t.policyId} && b.record == Some(Record(t.policyId, false, "")) && KeyUsable(b)
       case Granted => false
       case StoreDone(ok) => !ok
       case _ => true
  }

  predicate BeingStored(b: Blob)
    requires b.origin.Some?
  {
    b.origin.value.storer in b.threads && b.threads.Keys == {b.origin.value.storer} && StoreOk(b, b.threads[b.origin.value.storer])
  }

  // ----- The blob in use -----

  /** Exactly these backends hold a copy; after a double failure, at least these. */
  predicate CopiesAt(b: Blob, policies: set<string>) {
    policies <= b.copies.Keys && (b.doubleFailed || b.copies.Keys == policies)
  }

  /** Nobody is in the middle of anything that matters. */
  predicate Quiet(b: Blob) {
    b.record.Some? &&
    if b.record.value.deleted then b.deleter.Some? && KeyGone(b)
    else b.deleter.None? && KeyUsable(b) && CopiesAt(b, {b.record.value.policyId})
  }

  predicate Undeleted(b: Blob, r: Record) {
    b.record == Some(r) && !r.deleted && b.deleter.None?
  }

  predicate Landed(b: Blob, policyId: string) {
    Quiet(b) && b.record.value.policyId == policyId && !b.record.value.deleted
  }

  /** The state of the blob as the holder of its lock has left it. */
  predicate HolderOk(b: Blob, t: Thread) {
    match t
    case Moving(to, pc) =>
      (match pc
       case MoveRead(r) => Quiet(b) && Undeleted(b, r) && r.policyId != to
       case MoveFetched(r, s) => Quiet(b) && Undeleted(b, r) && r.policyId != to && OriginalCopy(b, s)
       case MoveWritten(r) => Undeleted(b, r) && r.policyId != to && KeyUsable(b) && CopiesAt(b, {r.policyId, to})
       case MoveUndo(r) => Undeleted(b, r) && r.policyId != to && KeyUsable(b) && CopiesAt(b, {r.policyId, to})
       case MoveSwitched(r) => Undeleted(b, r) && KeyUsable(b) && CopiesAt(b, {to})
       case MoveNoOp => Landed(b, to)
       case MoveRecorded => Landed(b, to)
       case MoveUnlock(Moved) => Landed(b, to)
       case MoveUnlock(MoveUnaudited) => Landed(b, to)
       case _ => Quiet(b))
    case Deleting(pc) =>
      (match pc
       case DeleteRead(r) => Quiet(b) && Undeleted(b, r)
       case CopyErased(r) => Undeleted(b, r) && KeyUsable(b)
       case KeyShredded(r) => Undeleted(b, r) && KeyGone(b)
       case Tombstone(r) => b.record.Some? && !b.record.value.deleted && b.deleter.None? && KeyGone(b)
       case _ => Quiet(b))
    case _ => false
  }

  predicate InUse(b: Blob) {
    if b.lock.None? then Quiet(b)
    else b.lock.value in b.threads && HolderOk(b, b.threads[b.lock.value])
  }

  // ----- The blob while and after StoreBlob undoes it without the lock -----

  /** What the holder of the lock can still rely on. */
  predicate Loose(b: Blob, t: Thread) {
    match t
    case Moving(_, pc) =>
      (match pc
       case MoveRead(r) => !r.deleted
       case MoveFetched(r, s) => !r.deleted && OriginalCopy(b, s)
       case MoveWritten(r) => !r.deleted
       case MoveUndo(r) => !r.deleted
       case MoveSwitched(r) => !r.deleted
       case _ => true)
    case Deleting(pc) => pc.KeyShredded? || pc.Tombstone? ==> KeyGone(b)
    case _ => false
  }

  predicate NoTombstone(b: Blob) {
    b.record.Some? ==> !b.record.value.deleted
  }

  predicate Undone(b: Blob) {
    b.deleter.None? ==> NoTombstone(b) && (b.lock.Some? ==> b.lock.value in b.threads && Loose(b, b.threads[b.lock.value]))
  }

  // ----- The blob after a delete -----

  predicate Shut(b: Blob) {
    KeyGone(b) && (b.record.Some? ==> b.record.value.deleted)
  }

  /** The thread will not write the record any more. */
  predicate Harmless(t: Thread) {
    match t
    case Moving(_, pc) => pc.MoveBegun? || pc.MoveChecked? || pc.MoveLocked? || pc.MoveUnlock? || pc.MoveDone?
    case Deleting(pc) => pc.DeleteBegun? || pc.DeleteChecked? || pc.DeleteLocked? || pc.DeleteRecorded? || pc.DeleteUnlock? || pc.DeleteDone?
    case _ => true
  }

  predicate Buried(b: Blob) {
    Shut(b) && (b.lock.Some? ==> b.lock.value in b.threads && Harmless(b.threads[b.lock.value]))
  }

  /** The owner's grant is in effect. */
  predicate Settled(b: Blob) {
    && (b.deleter.Some? ==> Buried(b))
    && if b.rolledBack then Undone(b) else InUse(b)
  }

  ghost predicate Inv(b: Blob) {
    && AllOriginal(b)
    && ThreadsOk(b)
    && b.keyHeld == b.keyLive
    && (b.returned ==> b.granted && !b.rolledBack)
    && (b.lock.Some? ==> b.lock.value in b.threads)
    && if b.origin.None? then Unused(b) else if b.granted then Settled(b) else BeingStored(b)
  }

  // ----- Threads that are not stepping -----

  /** The operations of moves, deletes and reads: `tid` takes, releases and buries for itself. */
  predicate RequestOp(b: Blob, op: Op, tid: nat) {
    && !op.KeepKey? && !op.Grant? && !op.LateGrant? && !op.Return? && !op.RollBack? && !op.DropRecord?
    && (op.Lock? ==> op.tid == tid && b.lock.None?)
    && (op.Unlock? ==> b.lock == Some(tid))
    && (op.Bury? ==> op.tid == tid && b.deleter.None?)
  }

  lemma OtherThreadOk(b: Blob, op: Op, tid: nat, other: nat, t: Thread)
    requires RequestOp(b, op, tid) && other != tid && ThreadOk(b, other, t)
    ensures ThreadOk(Perform(b, op), other, t)
  {
  }

  lemma AllThreadsOk(b: Blob, op: Op, tid: nat, t': Thread)
    requires RequestOp(b, op, tid) && ThreadsOk(b) && ThreadOk(Perform(b, op), tid, t')
    ensures ThreadsOk(At(b, op, tid, t'))
  {
    var b' := At(b, op, tid, t');
    forall t | t in b'.threads ensures ThreadOk(b', t, b'.threads[t]) {
      assert ThreadOk(b', tid, t') <==> ThreadOk(Perform(b, op), tid, t');
      if t != tid {
        OtherThreadOk(b, op, tid, t, b.threads[t]);
      }
    }
  }

  /** A request that does not hold the lock changes nothing by moving on. */
  lemma SettledAt(b: Blob, tid: nat, t': Thread)
    requires Settled(b) && b.lock != Some(tid)
    ensures Settled(At(b, Nothing, tid, t'))
  {
  }

  // ----- StoreBlob -----

  lemma BeginStoreKeeps(cfg: Config, b: Blob, step: Step)
    requires Inv(b) && Enabled(cfg, b, step) && step.BeginStore?
    ensures Inv(Apply(cfg, b, step))
  {
  }

  lemma BeginKeeps(cfg: Config, b: Blob, step: Step)
    requires Inv(b) && Enabled(cfg, b, step) && !step.Go? && !step.BeginStore? && !step.GrantedLate?
    ensures Inv(Apply(cfg, b, step))
  {
    var t' := Apply(cfg, b, step).threads[step.tid];
    AllThreadsOk(b, Nothing, step.tid, t');
    if b.origin.Some? {
      SettledAt(b, step.tid, t');
    }
  }

  lemma StoreThreads(b: Blob, op: Op, tid: nat, t': Thread)
    requires ThreadsOk(b) && !op.Lock? && !op.Unlock? && !op.Bury?
    requires tid in b.threads && b.threads[tid].Storing? && t'.Storing? && StoringOk(Perform(b, op), tid, t')
    ensures ThreadsOk(At(b, op, tid, t'))
  {
    var b' := At(b, op, tid, t');
    assert ThreadOk(b, tid, b.threads[tid]);
    forall t | t in b'.threads ensures ThreadOk(b', t, b'.threads[t]) {
      if t != tid {
        assert ThreadOk(b, t, b.threads[t]);
      }
    }
  }

  lemma CopiesStayOriginal(b: Blob, op: Op)
    requires AllOriginal(b) && (op.Write? ==> OriginalCopy(b, op.sealed))
    ensures AllOriginal(Perform(b, op))
  {
  }

  lemma StoreStep(b: Blob, tid: nat, t: Thread, ok: bool)
    requires t.Storing? && StoringOk(b, tid, t) && !Finished(t) && b.keyHeld == b.keyLive
    requires !b.granted ==> StoreOk(b, t)
    ensures var e := Perform(b, StoreOp(t, ok));
            e.keyHeld == e.keyLive && StoringOk(e, tid, t.(spc := StoreNext(t.spc, ok)))
  {
  }

  lemma StoreAlone(b: Blob, t: Thread, ok: bool)
    requires t.Storing? && StoreOk(b, t) && !Finished(t) && !b.granted
    ensures var e := Perform(b, StoreOp(t, ok));
            if e.granted then Quiet(e) else StoreOk(e, t.(spc := StoreNext(t.spc, ok)))
  {
  }

  /** Rolling back leaves the holder of the lock with what it can rely on. */
  lemma InUseLoosens(b: Blob, t: Thread)
    requires HolderOk(b, t)
    ensures b.deleter.None? ==> NoTombstone(b) && Loose(b, t)
  {
  }

  lemma StoreSettled(b: Blob, tid: nat, t: Thread, ok: bool)
    requires t.Storing? && StoringOk(b, tid, t) && !Finished(t) && b.granted && Settled(b) && b.lock != Some(tid)
    ensures Settled(At(b, StoreOp(t, ok), tid, t.(spc := StoreNext(t.spc, ok))))
  {
    if t.spc.Granted? && b.lock.Some? {
      InUseLoosens(b, b.threads[b.lock.value]);
    }
  }

  lemma StoreKeeps(cfg: Config, b: Blob, tid: nat, ok: bool)
    requires Enabled(cfg, b, Go(tid, ok)) && Inv(b) && b.threads[tid].Storing?
    ensures Inv(Apply(cfg, b, Go(tid, ok)))
  {
    var t := b.threads[tid];
    assert ThreadOk(b, tid, t);
    CopiesStayOriginal(b, StoreOp(t, ok));
    StoreStep(b, tid, t, ok);
    StoreThreads(b, StoreOp(t, ok), tid, t.(spc := StoreNext(t.spc, ok)));
    if b.granted {
      StoreSettled(b, tid, t, ok);
    } else {
      StoreAlone(b, t, ok);
    }
  }

  lemma LateGrantKeeps(cfg: Config, b: Blob, tid: nat)
    requires Enabled(cfg, b, GrantedLate(tid)) && Inv(b)
    ensures Inv(Apply(cfg, b, GrantedLate(tid)))
  {
    var t := b.threads[tid];
    assert ThreadOk(b, tid, t);
    StoreThreads(b, LateGrant, tid, t.(spc := UndoCopy));
  }

  // ----- MoveBlob -----

  predicate AtLock(t: Thread) {
    (t.Moving? && (t.mpc.MoveBegun? || t.mpc.MoveChecked? || t.mpc.MoveUnlock?)) ||
    (t.Deleting? && (t.dpc.DeleteBegun? || t.dpc.DeleteChecked? || t.dpc.DeleteUnlock?))
  }

  lemma MoveStep(cfg: Config, b: Blob, tid: nat, t: Thread, ok: bool)
    requires t.Moving? && LockMatches(b, tid, t) && !Finished(t) && (WaitsForLock(t) ==> b.lock.None?)
    ensures RequestOp(b, MoveOp(tid, t, ok), tid) && !MoveOp(tid, t, ok).Bury? && !MoveOp(tid, t, ok).DestroyKey?
    ensures LockMatches(Perform(b, MoveOp(tid, t, ok)), tid, t.(mpc := MoveNext(cfg, b, t, ok)))
  {
  }

  lemma MoveHolder(cfg: Config, b: Blob, tid: nat, t: Thread, ok: bool)
    requires t.Moving? && HoldsLock(t) && !t.mpc.MoveUnlock? && HolderOk(b, t) && AllOriginal(b)
    ensures HolderOk(Perform(b, MoveOp(tid, t, ok)), t.(mpc := MoveNext(cfg, b, t, ok)))
  {
  }

  lemma MoveInUseAtLock(cfg: Config, b: Blob, tid: nat, t: Thread, ok: bool)
    requires t.Moving? && AtLock(t) && InUse(b) && LockMatches(b, tid, t)
    requires tid in b.threads && b.threads[tid] == t && (WaitsForLock(t) ==> b.lock.None?)
    ensures InUse(At(b, MoveOp(tid, t, ok), tid, t.(mpc := MoveNext(cfg, b, t, ok))))
  {
  }

  lemma MoveInUse(cfg: Config, b: Blob, tid: nat, t: Thread, ok: bool)
    requires t.Moving? && !AtLock(t) && InUse(b) && AllOriginal(b) && LockMatches(b, tid, t) && !Finished(t)
    requires tid in b.threads && b.threads[tid] == t
    ensures InUse(At(b, MoveOp(tid, t, ok), tid, t.(mpc := MoveNext(cfg, b, t, ok))))
  {
    MoveHolder(cfg, b, tid, t, ok);
  }

  lemma MoveUndone(cfg: Config, b: Blob, tid: nat, t: Thread, ok: bool)
    requires t.Moving? && AllOriginal(b) && Undone(b) && b.deleter.None? && Loose(b, t) && LockMatches(b, tid, t)
    requires b.lock.Some? ==> b.lock.value in b.threads
    ensures Undone(At(b, MoveOp(tid, t, ok), tid, t.(mpc := MoveNext(cfg, b, t, ok))))
  {
  }

  lemma MoveBuried(cfg: Config, b: Blob, tid: nat, t: Thread, ok: bool)
    requires t.Moving? && Buried(b) && Harmless(t)
    requires LockMatches(b, tid, t)
    ensures Buried(At(b, MoveOp(tid, t, ok), tid, t.(mpc := MoveNext(cfg, b, t, ok))))
  {
  }

  /** The holder of the lock, and any request that does not hold it, is as the blob expects. */
  lemma ActingThread(b: Blob, tid: nat)
    requires Inv(b) && tid in b.threads && b.granted && (b.threads[tid].Moving? || b.threads[tid].Deleting?)
    ensures var t := b.threads[tid];
            && (b.deleter.Some? ==> Harmless(t))
            && (b.rolledBack && b.deleter.None? ==> Loose(b, t))
            && (t.Moving? && t.mpc.MoveFetched? ==> OriginalCopy(b, t.mpc.sealed))
  {
    assert ThreadOk(b, tid, b.threads[tid]);
  }

  lemma MoveSettled(cfg: Config, b: Blob, tid: nat, ok: bool)
    requires Enabled(cfg, b, Go(tid, ok)) && Inv(b) && b.threads[tid].Moving? && b.granted
    ensures Settled(Apply(cfg, b, Go(tid, ok)))
  {
    var t := b.threads[tid];
    assert ThreadOk(b, tid, t);
    ActingThread(b, tid);
    MoveStep(cfg, b, tid, t, ok);
    if b.deleter.Some? {
      MoveBuried(cfg, b, tid, t, ok);
    }
    if !b.rolledBack && AtLock(t) {
      MoveInUseAtLock(cfg, b, tid, t, ok);
    } else if !b.rolledBack {
      MoveInUse(cfg, b, tid, t, ok);
    } else if b.deleter.None? {
      MoveUndone(cfg, b, tid, t, ok);
    }
  }

  lemma MoveUnused(cfg: Config, b: Blob, tid: nat, ok: bool)
    requires Enabled(cfg, b, Go(tid, ok)) && Unused(b) && b.threads[tid].Moving?
    ensures Unused(Apply(cfg, b, Go(tid, ok)))
  {
    assert NothingThere(b.threads[tid]);
  }

  lemma MoveKeeps(cfg: Config, b: Blob, tid: nat, ok: bool)
    requires Enabled(cfg, b, Go(tid, ok)) && Inv(b) && b.threads[tid].Moving?
    ensures Inv(Apply(cfg, b, Go(tid, ok)))
  {
    var t := b.threads[tid];
    assert ThreadOk(b, tid, t);
    MoveStep(cfg, b, tid, t, ok);
    AllThreadsOk(b, MoveOp(tid, t, ok), tid, t.(mpc := MoveNext(cfg, b, t, ok)));
    if b.origin.None? {
      MoveUnused(cfg, b, tid, ok);
    } else {
      ActingThread(b, tid);
      CopiesStayOriginal(b, MoveOp(tid, t, ok));
      MoveSettled(cfg, b, tid, ok);
    }
  }

  // ----- DeleteBlob -----

  lemma DeleteStep(cfg: Config, b: Blob, tid: nat, t: Thread, ok: bool)
    requires t.Deleting? && LockMatches(b, tid, t) && !Finished(t) && (WaitsForLock(t) ==> b.lock.None?)
    requires t.dpc.Tombstone? ==> b.deleter.None?
    ensures RequestOp(b, DeleteOp(cfg, tid, t.dpc, ok), tid) && !DeleteOp(cfg, tid, t.dpc, ok).Write?
    ensures LockMatches(Perform(b, DeleteOp(cfg, tid, t.dpc, ok)), tid, Deleting(DeleteNext(cfg, b, t.dpc, ok)))
  {
  }

  lemma DeleteHolder(cfg: Config, b: Blob, tid: nat, t: Thread, ok: bool)
    requires t.Deleting? && HoldsLock(t) && !t.dpc.DeleteUnlock? && HolderOk(b, t)
    ensures HolderOk(Perform(b, DeleteOp(cfg, tid, t.dpc, ok)), Deleting(DeleteNext(cfg, b, t.dpc, ok)))
  {
  }

  lemma DeleteInUseAtLock(cfg: Config, b: Blob, tid: nat, t: Thread, ok: bool)
    requires t.Deleting? && AtLock(t) && InUse(b) && LockMatches(b, tid, t)
    requires tid in b.threads && b.threads[tid] == t && (WaitsForLock(t) ==> b.lock.None?)
    ensures InUse(At(b, DeleteOp(cfg, tid, t.dpc, ok), tid, Deleting(DeleteNext(cfg, b, t.dpc, ok))))
  {
  }

  lemma DeleteInUse(cfg: Config, b: Blob, tid: nat, t: Thread, ok: bool)
    requires t.Deleting? && !AtLock(t) && InUse(b) && LockMatches(b, tid, t) && !Finished(t)
    requires tid in b.threads && b.threads[tid] == t
    ensures InUse(At(b, DeleteOp(cfg, tid, t.dpc, ok), tid, Deleting(DeleteNext(cfg, b, t.dpc, ok))))
  {
    DeleteHolder(cfg, b, tid, t, ok);
  }

  lemma DeleteUndone(cfg: Config, b: Blob, tid: nat, t: Thread, ok: bool)
    requires t.Deleting? && b.keyHeld == b.keyLive && Undone(b) && b.deleter.None? && Loose(b, t) && !t.dpc.Tombstone? && LockMatches(b, tid, t)
    requires b.lock.Some? ==> b.lock.value in b.threads
    ensures Undone(At(b, DeleteOp(cfg, tid, t.dpc, ok), tid, Deleting(DeleteNext(cfg, b, t.dpc, ok))))
  {
  }

  lemma DeleteBuried(cfg: Config, b: Blob, tid: nat, t: Thread, ok: bool)
    requires t.Deleting? && if t.dpc.Tombstone? then KeyGone(b) && b.lock == Some(tid) else Buried(b) && Harmless(t)
    requires LockMatches(b, tid, t)
    ensures Buried(At(b, DeleteOp(cfg, tid, t.dpc, ok), tid, Deleting(DeleteNext(cfg, b, t.dpc, ok))))
  {
  }

  /** The key is gone when the tombstone is about to be written, and there is none yet. */
  lemma TombstoneNext(b: Blob, tid: nat)
    requires Inv(b) && tid in b.threads && b.threads[tid].Deleting? && b.threads[tid].dpc.Tombstone?
    ensures b.granted && KeyGone(b) && b.deleter.None?
  {
    assert ThreadOk(b, tid, b.threads[tid]);
    assert b.origin.None? ==> NothingThere(b.threads[tid]);
  }

  lemma DeleteSettled(cfg: Config, b: Blob, tid: nat, ok: bool)
    requires Enabled(cfg, b, Go(tid, ok)) && Inv(b) && b.threads[tid].Deleting? && b.granted
    ensures Settled(Apply(cfg, b, Go(tid, ok)))
  {
    var t := b.threads[tid];
    assert ThreadOk(b, tid, t);
    ActingThread(b, tid);
    if t.dpc.Tombstone? {
      TombstoneNext(b, tid);
    }
    DeleteStep(cfg, b, tid, t, ok);
    if b.deleter.Some? || t.dpc.Tombstone? {
      DeleteBuried(cfg, b, tid, t, ok);
    }
    if !b.rolledBack && AtLock(t) {
      DeleteInUseAtLock(cfg, b, tid, t, ok);
    } else if !b.rolledBack {
      DeleteInUse(cfg, b, tid, t, ok);
    } else if b.deleter.None? && !t.dpc.Tombstone? {
      DeleteUndone(cfg, b, tid, t, ok);
    }
  }

  lemma DeleteUnused(cfg: Config, b: Blob, tid: nat, ok: bool)
    requires Enabled(cfg, b, Go(tid, ok)) && Unused(b) && b.threads[tid].Deleting?
    ensures Unused(Apply(cfg, b, Go(tid, ok)))
  {
    assert NothingThere(b.threads[tid]);
  }

  lemma DeleteKeeps(cfg: Config, b: Blob, tid: nat, ok: bool)
    requires Enabled(cfg, b, Go(tid, ok)) && Inv(b) && b.threads[tid].Deleting?
    ensures Inv(Apply(cfg, b, Go(tid, ok)))
  {
    var t := b.threads[tid];
    assert ThreadOk(b, tid, t);
    if t.dpc.Tombstone? {
      TombstoneNext(b, tid);
    }
    DeleteStep(cfg, b, tid, t, ok);
    CopiesStayOriginal(b, DeleteOp(cfg, tid, t.dpc, ok));
    AllThreadsOk(b, DeleteOp(cfg, tid, t.dpc, ok), tid, Deleting(DeleteNext(cfg, b, t.dpc, ok)));
    if b.origin.None? {
      DeleteUnused(cfg, b, tid, ok);
    } else {
      DeleteSettled(cfg, b, tid, ok);
    }
  }

  // ----- RetrieveBlob -----

  lemma ReadStep(cfg: Config, b: Blob, t: Thread, ok: bool)
    requires t.Reading? && ReaderOk(b, t) && AllOriginal(b) && (b.deleter.Some? ==> Shut(b))
    ensures ReaderOk(b, t.(rpc := ReadNext(cfg, b, t.rpc, ok)))
  {
  }

  lemma ReaderGoesOn(b: Blob, tid: nat, t': Thread)
    requires Inv(b) && tid in b.threads && b.threads[tid].Reading? && t'.Reading? && ReaderOk(b, t')
    ensures Inv(At(b, Nothing, tid, t'))
  {
    assert ThreadOk(b, tid, b.threads[tid]);
    AllThreadsOk(b, Nothing, tid, t');
    if b.origin.Some? {
      SettledAt(b, tid, t');
    }
  }

  lemma ReadKeeps(cfg: Config, b: Blob, tid: nat, ok: bool)
    requires Enabled(cfg, b, Go(tid, ok)) && Inv(b) && b.threads[tid].Reading?
    ensures Inv(Apply(cfg, b, Go(tid, ok)))
  {
    var t := b.threads[tid];
    assert ThreadOk(b, tid, t);
    ReadStep(cfg, b, t, ok);
    ReaderGoesOn(b, tid, t.(rpc := ReadNext(cfg, b, t.rpc, ok)));
  }

  // ----- Every step, every run -----

  lemma StepKeeps(cfg: Config, b: Blob, step: Step)
    requires Inv(b) && Enabled(cfg, b, step)
    ensures Inv(Apply(cfg, b, step))
  {
    match step
    case Go(tid, ok) =>
      match b.threads[tid] {
        case Storing(_, _, _, _) => StoreKeeps(cfg, b, tid, ok);
        case Moving(_, _) => MoveKeeps(cfg, b, tid, ok);
        case Deleting(_) => DeleteKeeps(cfg, b, tid, ok);
        case Reading(_, _) => ReadKeeps(cfg, b, tid, ok);
      }
    case BeginStore(_, _, _, _) => BeginStoreKeeps(cfg, b, step);
    case GrantedLate(tid) => LateGrantKeeps(cfg, b, tid);
    case _ => BeginKeeps(cfg, b, step);
  }

  lemma {:induction false} RunKeeps(cfg: Config, sys: System, steps: seq<(string, Step)>)
    requires Runnable(cfg, sys, steps) && forall ref :: ref in sys ==> Inv(sys[ref])
    ensures forall ref :: ref in Run(cfg, sys, steps) ==> Inv(Run(cfg, sys, steps)[ref])
    decreases |steps|
  {
    if steps != [] {
      var (ref, step) := steps[0];
      StepKeeps(cfg, BlobAt(sys, ref), step);
      RunKeeps(cfg, sys[ref := Apply(cfg, BlobAt(sys, ref), step)], steps[1..]);
    }
  }
}
