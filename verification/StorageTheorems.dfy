/** The guarantees of StoreBlob, RetrieveBlob, MoveBlob and DeleteBlob over every interleaving. */
module StorageTheorems {
  import opened Bytes
  import opened Wrappers
  import opened StorageMachine
  import opened StorageSafety

  /** What a request reading envelope `s` now would see. */
  function Opens(b: Blob, s: Sealed): Option<ByteString> {
    if b.keyHeld && b.keyLive && b.origin.Some? && b.origin.value.key == s.key then Some(s.data) else None
  }

  lemma {:induction false} RunAppend(cfg: Config, sys: System, before: seq<(string, Step)>, after: seq<(string, Step)>)
    requires Runnable(cfg, sys, before + after)
    ensures Runnable(cfg, sys, before) && Runnable(cfg, Run(cfg, sys, before), after)
    ensures Run(cfg, sys, before + after) == Run(cfg, Run(cfg, sys, before), after)
    decreases |before|
  {
    if before == [] {
      assert before + after == after;
    } else {
      assert (before + after)[1..] == before[1..] + after;
      RunAppend(cfg, sys[before[0].0 := Apply(cfg, BlobAt(sys, before[0].0), before[0].1)], before[1..], after);
    }
  }

  lemma Reached(cfg: Config, steps: seq<(string, Step)>, ref: string)
    requires Runnable(cfg, map[], steps)
    ensures Inv(BlobAt(Run(cfg, map[], steps), ref))
  {
    RunKeeps(cfg, map[], steps);
    assert Inv(Unborn);
  }

  /**
   A blob whose StoreBlob succeeded, that no delete has tombstoned, and on
   which no move or delete is under way: the backend its record names holds it
   and opens it to the bytes stored, and no other backend holds anything,
   unless a move reported that both the removal and its rollback failed.
   */
  lemma StoredBlobsAreWhole(cfg: Config, steps: seq<(string, Step)>, ref: string)
    requires Runnable(cfg, map[], steps)
    ensures var b := BlobAt(Run(cfg, map[], steps), ref);
            b.returned && b.lock.None? && b.deleter.None? ==>
              && b.record.Some? && !b.record.value.deleted && b.origin.Some?
              && b.record.value.policyId in b.copies
              && Opens(b, b.copies[b.record.value.policyId]) == Some(b.origin.value.data)
              && (!b.doubleFailed ==> b.copies.Keys == {b.record.value.policyId})
  {
    Reached(cfg, steps, ref);
  }

  /** The move is about to release the lock, having succeeded but perhaps for its audit event. */
  predicate MoveTookEffect(b: Blob, tid: nat) {
    tid in b.threads && b.threads[tid].Moving? &&
    (b.threads[tid].mpc == MoveUnlock(Moved) || b.threads[tid].mpc == MoveUnlock(MoveUnaudited))
  }

  /** The backend of the policy holds the blob, and it opens to the bytes stored. */
  predicate OpensAt(b: Blob, policyId: string) {
    policyId in b.copies && b.origin.Some? && Opens(b, b.copies[policyId]) == Some(b.origin.value.data)
  }

  /** A move that took effect leaves the blob at the policy asked for and, usually, nowhere else, unless StoreBlob is taking the blob back. */
  lemma MovesLandWhereAsked(cfg: Config, steps: seq<(string, Step)>, ref: string, tid: nat)
    requires Runnable(cfg, map[], steps)
    ensures var b := BlobAt(Run(cfg, map[], steps), ref);
            MoveTookEffect(b, tid) && !b.rolledBack ==>
              && b.record.Some? && b.record.value.policyId == b.threads[tid].newPolicy
              && OpensAt(b, b.threads[tid].newPolicy)
              && (!b.doubleFailed ==> b.copies.Keys == {b.threads[tid].newPolicy})
  {
    Reached(cfg, steps, ref);
    var b := BlobAt(Run(cfg, map[], steps), ref);
    if MoveTookEffect(b, tid) {
      assert ThreadOk(b, tid, b.threads[tid]);
      assert b.origin.None? ==> NothingThere(b.threads[tid]);
    }
  }

  /** A blob whose StoreBlob failed never opens again, wherever a move or a failed erasure has left a copy. */
  lemma FailedStoresStayShut(cfg: Config, steps: seq<(string, Step)>, ref: string, storer: nat)
    requires Runnable(cfg, map[], steps)
    ensures var b := BlobAt(Run(cfg, map[], steps), ref);
            storer in b.threads && b.threads[storer].Storing? && b.threads[storer].spc == StoreDone(false) ==>
              !b.returned && forall p :: p in b.copies ==> Opens(b, b.copies[p]) == None
  {
    Reached(cfg, steps, ref);
    var b := BlobAt(Run(cfg, map[], steps), ref);
    if storer in b.threads {
      assert ThreadOk(b, storer, b.threads[storer]);
    }
  }

  /** Once StoreBlob has answered, a move that took effect has delivered the blob exactly when StoreBlob succeeded. */
  lemma MovesLandIffStored(cfg: Config, steps: seq<(string, Step)>, ref: string, storer: nat, tid: nat)
    requires Runnable(cfg, map[], steps)
    ensures var b := BlobAt(Run(cfg, map[], steps), ref);
            storer in b.threads && b.threads[storer].Storing? && b.threads[storer].spc.StoreDone? && MoveTookEffect(b, tid) ==>
              (OpensAt(b, b.threads[tid].newPolicy) <==> b.threads[storer].spc == StoreDone(true))
  {
    FailedStoresStayShut(cfg, steps, ref, storer);
    MovesLandWhereAsked(cfg, steps, ref, tid);
    Reached(cfg, steps, ref);
    var b := BlobAt(Run(cfg, map[], steps), ref);
    if storer in b.threads {
      assert ThreadOk(b, storer, b.threads[storer]);
    }
  }

  // ----- Moves that have answered -----

  /** The request neither holds the lock nor has held it. */
  predicate Aside(t: Thread) {
    match t
    case Moving(_, pc) => pc.MoveBegun? || pc.MoveChecked? || pc == MoveDone(MoveDenied)
    case Deleting(pc) => pc.DeleteBegun? || pc.DeleteChecked? || pc == DeleteDone(DeleteDenied)
    case _ => true
  }

  /** No other move or delete has come as far as the lock. */
  ghost predicate Sole(b: Blob, tid: nat) {
    forall t :: t in b.threads && t != tid ==> Aside(b.threads[t])
  }

  predicate AnsweredMove(b: Blob, tid: nat) {
    tid in b.threads && b.threads[tid].Moving? &&
    (b.threads[tid].mpc == MoveDone(Moved) || b.threads[tid].mpc == MoveDone(MoveUnaudited))
  }

  /** A blob that one move alone has moved is where that move took it. */
  ghost predicate StaysLanded(b: Blob, tid: nat) {
    AnsweredMove(b, tid) && Sole(b, tid) && !b.rolledBack ==> Landed(b, b.threads[tid].newPolicy)
  }

  lemma NextAside(cfg: Config, b: Blob, t: Thread, ok: bool)
    requires Aside(Next(cfg, b, t, ok)) && !DeniedInside(t)
    ensures Aside(t)
  {
  }

  lemma AsideBefore(cfg: Config, b: Blob, step: Step, tid: nat)
    requires Inv(b) && Enabled(cfg, b, step) && Sole(Apply(cfg, b, step), tid)
    ensures Sole(b, tid)
  {
    var b' := Apply(cfg, b, step);
    forall t | t in b.threads && t != tid ensures Aside(b.threads[t]) {
      assert Aside(b'.threads[t]) && ThreadOk(b, t, b.threads[t]);
      if step.Go? && step.tid == t {
        NextAside(cfg, b, b.threads[t], step.ok);
      }
    }
  }

  /** A request that stays aside does nothing to the blob. */
  lemma AsideDoesNothing(cfg: Config, b: Blob, t: nat, ok: bool)
    requires Inv(b) && Enabled(cfg, b, Go(t, ok)) && !b.threads[t].Storing? && Aside(Next(cfg, b, b.threads[t], ok))
    ensures OpOf(cfg, b, t, ok) == Nothing
  {
    assert ThreadOk(b, t, b.threads[t]);
  }

  /** Once a move can have answered, StoreBlob only answers or rolls back. */
  lemma StorerOnlyAnswers(cfg: Config, b: Blob, t: nat, ok: bool)
    requires Inv(b) && Enabled(cfg, b, Go(t, ok)) && b.threads[t].Storing? && b.granted
    ensures OpOf(cfg, b, t, ok) in {Return, RollBack} || b.rolledBack
  {
    assert ThreadOk(b, t, b.threads[t]);
  }

  lemma MoverArrives(cfg: Config, b: Blob, tid: nat, ok: bool)
    requires Inv(b) && Enabled(cfg, b, Go(tid, ok)) && b.threads[tid].Moving?
    ensures StaysLanded(Apply(cfg, b, Go(tid, ok)), tid)
  {
    assert ThreadOk(b, tid, b.threads[tid]);
    assert b.origin.None? ==> NothingThere(b.threads[tid]);
  }

  lemma LandedUnderOthers(cfg: Config, b: Blob, step: Step, tid: nat)
    requires Inv(b) && Enabled(cfg, b, step) && StaysLanded(b, tid) && !step.BeginStore? && step.tid != tid
    ensures StaysLanded(Apply(cfg, b, step), tid)
  {
    var b' := Apply(cfg, b, step);
    if AnsweredMove(b', tid) && Sole(b', tid) && !b'.rolledBack {
      AsideBefore(cfg, b, step, tid);
      assert Aside(b'.threads[step.tid]);
      if step.Go? && b.threads[step.tid].Storing? {
        AnsweredIsGranted(b, tid);
        StorerOnlyAnswers(cfg, b, step.tid, step.ok);
      } else if step.Go? {
        AsideDoesNothing(cfg, b, step.tid, step.ok);
      }
    }
  }

  lemma AnsweredIsGranted(b: Blob, tid: nat)
    requires Inv(b) && AnsweredMove(b, tid) && StaysLanded(b, tid) && Sole(b, tid) && !b.rolledBack
    ensures b.granted
  {
    assert Landed(b, b.threads[tid].newPolicy);
  }

  lemma StepStaysLanded(cfg: Config, b: Blob, step: Step, tid: nat)
    requires Inv(b) && Enabled(cfg, b, step) && StaysLanded(b, tid)
    ensures StaysLanded(Apply(cfg, b, step), tid)
  {
    if !step.BeginStore? && step.tid != tid {
      LandedUnderOthers(cfg, b, step, tid);
    } else if step.Go? && b.threads[tid].Moving? {
      MoverArrives(cfg, b, tid, step.ok);
    }
  }

  lemma {:induction false} RunStaysLanded(cfg: Config, sys: System, steps: seq<(string, Step)>, ref: string, tid: nat)
    requires Runnable(cfg, sys, steps) && Inv(BlobAt(sys, ref)) && StaysLanded(BlobAt(sys, ref), tid)
    ensures StaysLanded(BlobAt(Run(cfg, sys, steps), ref), tid)
    decreases |steps|
  {
    if steps != [] {
      var (r, step) := steps[0];
      var b := BlobAt(sys, r);
      if r == ref {
        StepKeeps(cfg, b, step);
        StepStaysLanded(cfg, b, step, tid);
      }
      RunStaysLanded(cfg, sys[r := Apply(cfg, b, step)], steps[1..], ref, tid);
    }
  }

  /**
   A move that has answered success, before or after StoreBlob answered, has
   delivered the blob exactly when StoreBlob succeeded, as long as no other move
   or delete has come as far as the lock.
   */
  lemma AnsweredMovesLastIffStored(cfg: Config, steps: seq<(string, Step)>, ref: string, storer: nat, tid: nat)
    requires Runnable(cfg, map[], steps)
    ensures var b := BlobAt(Run(cfg, map[], steps), ref);
            storer in b.threads && b.threads[storer].Storing? && b.threads[storer].spc.StoreDone? && AnsweredMove(b, tid) && Sole(b, tid) ==>
              (OpensAt(b, b.threads[tid].newPolicy) <==> b.threads[storer].spc == StoreDone(true))
  {
    FailedStoresStayShut(cfg, steps, ref, storer);
    Reached(cfg, steps, ref);
    RunStaysLanded(cfg, map[], steps, ref, tid);
    var b := BlobAt(Run(cfg, map[], steps), ref);
    if storer in b.threads {
      assert ThreadOk(b, storer, b.threads[storer]);
    }
  }

  /** RetrieveBlob, which takes no lock, answers the bytes stored or nothing. */
  lemma ReadsAnswerTheOriginal(cfg: Config, steps: seq<(string, Step)>, ref: string, tid: nat)
    requires Runnable(cfg, map[], steps)
    ensures var b := BlobAt(Run(cfg, map[], steps), ref);
            tid in b.threads && b.threads[tid].Reading? && b.threads[tid].rpc.ReadDone? && b.threads[tid].rpc.answer.Some? ==>
              b.origin.Some? && b.threads[tid].rpc.answer.value == b.origin.value.data
  {
    Reached(cfg, steps, ref);
    var b := BlobAt(Run(cfg, map[], steps), ref);
    if tid in b.threads {
      assert ThreadOk(b, tid, b.threads[tid]);
    }
  }

  /** The delete took effect: it answered success, or that only its audit event failed. */
  predicate DeleteTookEffect(b: Blob, tid: nat) {
    tid in b.threads && b.threads[tid].Deleting? && b.threads[tid].dpc.DeleteDone? &&
    (b.threads[tid].dpc.result.Deleted? || b.threads[tid].dpc.result.DeleteUnaudited?)
  }

  lemma OneDeleteTakesEffect(cfg: Config, steps: seq<(string, Step)>, ref: string, first: nat, second: nat)
    requires Runnable(cfg, map[], steps)
    requires var b := BlobAt(Run(cfg, map[], steps), ref); DeleteTookEffect(b, first) && DeleteTookEffect(b, second)
    ensures first == second
  {
    Reached(cfg, steps, ref);
    var b := BlobAt(Run(cfg, map[], steps), ref);
    assert ThreadOk(b, first, b.threads[first]) && ThreadOk(b, second, b.threads[second]);
  }

  /** Once a delete has taken effect the wrapping key is gone, so no copy that survives it can be opened; the tombstone stays unless StoreBlob takes the blob back. */
  lemma DeletedBlobsStayShut(cfg: Config, steps: seq<(string, Step)>, ref: string, tid: nat)
    requires Runnable(cfg, map[], steps) && DeleteTookEffect(BlobAt(Run(cfg, map[], steps), ref), tid)
    ensures var b := BlobAt(Run(cfg, map[], steps), ref);
            && (b.record.Some? ==> b.record.value.deleted) && (!b.rolledBack ==> b.record.Some?) && KeyGone(b)
            && forall p :: p in b.copies ==> Opens(b, b.copies[p]) == None
  {
    Reached(cfg, steps, ref);
    var b := BlobAt(Run(cfg, map[], steps), ref);
    assert ThreadOk(b, tid, b.threads[tid]);
  }

  // ----- What no later step changes -----

  /** The origin, once set, and the kind of each thread are there to stay. */
  ghost predicate Kept(b: Blob, b': Blob) {
    && (b.origin.Some? ==> b'.origin == b.origin)
    && (forall t :: t in b.threads ==> t in b'.threads)
    && (forall t :: t in b.threads && b.threads[t].Reading? ==>
                      b'.threads[t].Reading? && b'.threads[t].afterDelete == b.threads[t].afterDelete)
  }

  lemma StepKept(cfg: Config, b: Blob, step: Step)
    requires Enabled(cfg, b, step)
    ensures Kept(b, Apply(cfg, b, step))
  {
  }

  lemma {:induction false} RunKept(cfg: Config, sys: System, steps: seq<(string, Step)>, ref: string)
    requires Runnable(cfg, sys, steps)
    ensures Kept(BlobAt(sys, ref), BlobAt(Run(cfg, sys, steps), ref))
    decreases |steps|
  {
    if steps != [] {
      var (r, step) := steps[0];
      var b := BlobAt(sys, r);
      StepKept(cfg, b, step);
      RunKept(cfg, sys[r := Apply(cfg, b, step)], steps[1..], ref);
    }
  }

  /** The bytes the theorems speak of are those StoreBlob was called with. */
  lemma OriginIsWhatWasStored(cfg: Config, before: seq<(string, Step)>, after: seq<(string, Step)>, ref: string,
                              tid: nat, policyId: string, key: nat, data: ByteString)
    requires Runnable(cfg, map[], before + [(ref, BeginStore(tid, policyId, key, data))] + after)
    ensures var b := BlobAt(Run(cfg, map[], before + [(ref, BeginStore(tid, policyId, key, data))] + after), ref);
            b.origin == Some(Origin(tid, key, data))
  {
    var step := [(ref, BeginStore(tid, policyId, key, data))];
    RunAppend(cfg, map[], before + step, after);
    RunAppend(cfg, map[], before, step);
    var sys := Run(cfg, map[], before + step);
    assert BlobAt(sys, ref).origin == Some(Origin(tid, key, data));
    RunKept(cfg, sys, after, ref);
  }

  /**
   A retrieve that begins once a delete has taken effect never answers with
   data, whatever runs in between and whatever copies survive.
   */
  lemma NothingReadAfterDelete(cfg: Config, before: seq<(string, Step)>, after: seq<(string, Step)>, ref: string,
                               deleter: nat, reader: nat)
    requires Runnable(cfg, map[], before + [(ref, BeginRead(reader))] + after)
    requires Runnable(cfg, map[], before) && DeleteTookEffect(BlobAt(Run(cfg, map[], before), ref), deleter)
    ensures var b := BlobAt(Run(cfg, map[], before + [(ref, BeginRead(reader))] + after), ref);
            && reader in b.threads && b.threads[reader].Reading?
            && !(b.threads[reader].rpc.ReadDone? && b.threads[reader].rpc.answer.Some?)
  {
    var step := [(ref, BeginRead(reader))];
    RunAppend(cfg, map[], before + step, after);
    RunAppend(cfg, map[], before, step);
    Reached(cfg, before, ref);
    var b0 := BlobAt(Run(cfg, map[], before), ref);
    assert ThreadOk(b0, deleter, b0.threads[deleter]);
    var sys := Run(cfg, map[], before + step);
    assert BlobAt(sys, ref).threads[reader] == Reading(true, ReadBegun);
    RunKept(cfg, sys, after, ref);
    Reached(cfg, before + step + after, ref);
    var b := BlobAt(Run(cfg, map[], before + step + after), ref);
    assert ThreadOk(b, reader, b.threads[reader]);
  }

  // ----- Duplicate copies -----

  predicate ReportsDoubleFailure(t: Thread) {
    t.Moving? && (t.mpc == MoveUnlock(DoubleFailure) || t.mpc == MoveDone(DoubleFailure))
  }

  ghost predicate Reported(b: Blob) {
    b.doubleFailed ==> exists tid :: tid in b.threads && ReportsDoubleFailure(b.threads[tid])
  }

  lemma StillReports(cfg: Config, b: Blob, t: Thread, ok: bool)
    requires ReportsDoubleFailure(t)
    ensures ReportsDoubleFailure(Next(cfg, b, t, ok))
  {
  }

  lemma DuplicateReports(cfg: Config, b: Blob, tid: nat, ok: bool)
    requires tid in b.threads && OpOf(cfg, b, tid, ok).Duplicate?
    ensures ReportsDoubleFailure(Next(cfg, b, b.threads[tid], ok))
  {
  }

  lemma StepReported(cfg: Config, b: Blob, step: Step)
    requires Enabled(cfg, b, step) && Reported(b)
    ensures Reported(Apply(cfg, b, step))
  {
    var b' := Apply(cfg, b, step);
    if b.doubleFailed {
      var w :| w in b.threads && ReportsDoubleFailure(b.threads[w]);
      if step.Go? {
        StillReports(cfg, b, b.threads[w], step.ok);
      }
      assert w in b'.threads && ReportsDoubleFailure(b'.threads[w]);
    } else if step.Go? && OpOf(cfg, b, step.tid, step.ok).Duplicate? {
      DuplicateReports(cfg, b, step.tid, step.ok);
      assert step.tid in b'.threads && ReportsDoubleFailure(b'.threads[step.tid]);
    }
  }

  lemma {:induction false} RunReported(cfg: Config, sys: System, steps: seq<(string, Step)>, ref: string)
    requires Runnable(cfg, sys, steps) && Reported(BlobAt(sys, ref))
    ensures Reported(BlobAt(Run(cfg, sys, steps), ref))
    decreases |steps|
  {
    if steps != [] {
      var (r, step) := steps[0];
      var b := BlobAt(sys, r);
      if r == ref {
        StepReported(cfg, b, step);
      }
      RunReported(cfg, sys[r := Apply(cfg, b, step)], steps[1..], ref);
    }
  }

  /** A blob at rest is in more than one backend only if some move has reported the double failure. */
  lemma DuplicatesAreReported(cfg: Config, steps: seq<(string, Step)>, ref: string)
    requires Runnable(cfg, map[], steps)
    ensures var b := BlobAt(Run(cfg, map[], steps), ref);
            b.returned && b.lock.None? && b.deleter.None? && |b.copies.Keys| != 1 ==>
              exists tid :: tid in b.threads && ReportsDoubleFailure(b.threads[tid])
  {
    StoredBlobsAreWhole(cfg, steps, ref);
    RunReported(cfg, map[], steps, ref);
  }

  // ----- A move that overlaps the rollback of StoreBlob -----

  ghost predicate Reachable(cfg: Config, ref: string, b: Blob) {
    exists steps: seq<(string, Step)> :: Runnable(cfg, map[], steps) && BlobAt(Run(cfg, map[], steps), ref) == b
  }

  lemma {:induction false} RunExtend(cfg: Config, sys: System, steps: seq<(string, Step)>, ref: string, step: Step)
    requires Runnable(cfg, sys, steps) && Enabled(cfg, BlobAt(Run(cfg, sys, steps), ref), step)
    ensures Runnable(cfg, sys, steps + [(ref, step)])
    ensures BlobAt(Run(cfg, sys, steps + [(ref, step)]), ref) == Apply(cfg, BlobAt(Run(cfg, sys, steps), ref), step)
    decreases |steps|
  {
    var all := steps + [(ref, step)];
    if steps == [] {
      assert all[1..] == [];
    } else {
      var (r, first) := steps[0];
      assert all[1..] == steps[1..] + [(ref, step)];
      RunExtend(cfg, sys[r := Apply(cfg, BlobAt(sys, r), first)], steps[1..], ref, step);
    }
  }

  /** A property of blobs that no step makes false. */
  ghost predicate Closed(cfg: Config, holds: Blob -> bool) {
    forall b: Blob, step: Step :: holds(b) && Enabled(cfg, b, step) ==> holds(Apply(cfg, b, step))
  }

  lemma ReachableIsClosed(cfg: Config, ref: string)
    ensures Reachable(cfg, ref, Unborn) && Closed(cfg, (b: Blob) => Reachable(cfg, ref, b))
  {
    assert Runnable(cfg, map[], []) && BlobAt(Run(cfg, map[], []), ref) == Unborn;
    forall b: Blob, step: Step | Reachable(cfg, ref, b) && Enabled(cfg, b, step)
      ensures Reachable(cfg, ref, Apply(cfg, b, step))
    {
      var steps :| Runnable(cfg, map[], steps) && BlobAt(Run(cfg, map[], steps), ref) == b;
      RunExtend(cfg, map[], steps, ref, step);
    }
  }

  lemma Extend(cfg: Config, holds: Blob -> bool, b: Blob, step: Step, b': Blob)
    requires Closed(cfg, holds) && holds(b) && Enabled(cfg, b, step) && b' == Apply(cfg, b, step)
    ensures holds(b')
  {
  }

  const TWO_DISKS := Config({"here", "there"}, {"here", "there"})
  const BYTES: ByteString := [1]
  const ENVELOPE := Sealed(7, BYTES)
  const HERE := Record("here", false, "")

  /** What backends, record store and key map hold. */
  datatype Held = Held(copies: map<string, Sealed>, record: Option<Record>, key: bool)

  function OnlyStorer(pc: StorePc, h: Held): Blob {
    Blob(h.copies, h.record, h.key, h.key, None, map[0 := Storing("here", 7, BYTES, pc)], Some(Origin(0, 7, BYTES)),
         pc.Granted?, false, false, false, None)
  }

  /** Request 0 is the StoreBlob and request 1 the MoveBlob. */
  function Both(spc: StorePc, mpc: MovePc, h: Held): Blob {
    Blob(h.copies, h.record, h.key, h.key, if mpc.MoveBegun? || mpc.MoveChecked? || mpc.MoveDone? then None else Some(1),
         map[0 := Storing("here", 7, BYTES, spc), 1 := Moving("there", mpc)], Some(Origin(0, 7, BYTES)),
         true, false, !spc.Granted?, false, None)
  }

  function Performed(h: Held, op: Op): Held {
    Held(if op.Write? then h.copies[op.policyId := op.sealed] else if op.Erase? then h.copies - {op.policyId} else h.copies,
         if op.PutRecord? then Some(op.r) else if op.DropRecord? then None else h.record,
         op.KeepKey? || (h.key && !op.DestroyKey?))
  }

  lemma AloneGoes(holds: Blob -> bool, pc: StorePc, h: Held, h': Held)
    requires Closed(TWO_DISKS, holds)
    requires holds(OnlyStorer(pc, h)) && (pc.StoreBegun? || pc.Written? || pc.Recorded? || pc.Keyed?)
    requires h' == Performed(h, StoreOp(Storing("here", 7, BYTES, pc), true))
    ensures holds(OnlyStorer(StoreNext(pc, true), h'))
  {
    var b := OnlyStorer(pc, h);
    assert b.threads[0] == Storing("here", 7, BYTES, pc);
    Extend(TWO_DISKS, holds, b, Go(0, true), OnlyStorer(StoreNext(pc, true), h'));
  }

  lemma RollsBack(mpc: MovePc, h: Held)
    ensures Apply(TWO_DISKS, Both(Granted, mpc, h), Go(0, false)) == Both(UndoCopy, mpc, h)
  {
    assert Both(Granted, mpc, h).threads[0] == Storing("here", 7, BYTES, Granted);
  }

  lemma Undoes(spc: StorePc, mpc: MovePc, h: Held, h': Held)
    requires (spc.UndoCopy? || spc.UndoRecord? || spc.UndoKey?) && h' == Performed(h, StoreOp(Storing("here", 7, BYTES, spc), true))
    ensures Apply(TWO_DISKS, Both(spc, mpc, h), Go(0, true)) == Both(StoreNext(spc, true), mpc, h')
  {
    assert Both(spc, mpc, h).threads[0] == Storing("here", 7, BYTES, spc);
  }

  lemma StorerGoes(holds: Blob -> bool, spc: StorePc, mpc: MovePc, h: Held, h': Held)
    requires Closed(TWO_DISKS, holds)
    requires holds(Both(spc, mpc, h)) && (spc.Granted? || spc.UndoCopy? || spc.UndoRecord? || spc.UndoKey?)
    requires h' == Performed(h, StoreOp(Storing("here", 7, BYTES, spc), !spc.Granted?))
    ensures holds(Both(StoreNext(spc, !spc.Granted?), mpc, h'))
  {
    if spc.Granted? {
      RollsBack(mpc, h);
      Extend(TWO_DISKS, holds, Both(spc, mpc, h), Go(0, false), Both(UndoCopy, mpc, h));
    } else {
      Undoes(spc, mpc, h, h');
      Extend(TWO_DISKS, holds, Both(spc, mpc, h), Go(0, true), Both(StoreNext(spc, true), mpc, h'));
    }
  }

  lemma MoverGoes(holds: Blob -> bool, spc: StorePc, mpc: MovePc, h: Held, mpc': MovePc, h': Held)
    requires Closed(TWO_DISKS, holds)
    requires holds(Both(spc, mpc, h)) && !mpc.MoveDone?
    requires h' == Performed(h, MoveOp(1, Moving("there", mpc), true))
    requires mpc' == MoveNext(TWO_DISKS, Both(spc, mpc, h), Moving("there", mpc), true)
    ensures holds(Both(spc, mpc', h'))
  {
    var b := Both(spc, mpc, h);
    assert b.threads[1] == Moving("there", mpc);
    Extend(TWO_DISKS, holds, b, Go(1, true), Both(spc, mpc', h'));
  }

  const STORED := Held(map["here" := ENVELOPE], Some(HERE), true)

  lemma StoredUpToTheAudit(holds: Blob -> bool)
    requires Closed(TWO_DISKS, holds) && holds(Unborn)
    ensures holds(OnlyStorer(Granted, STORED))
  {
    var copied := map["here" := ENVELOPE];
    Extend(TWO_DISKS, holds, Unborn, BeginStore(0, "here", 7, BYTES), OnlyStorer(StoreBegun, Held(map[], None, false)));
    AloneGoes(holds, StoreBegun, Held(map[], None, false), Held(copied, None, false));
    AloneGoes(holds, Written, Held(copied, None, false), Held(copied, Some(HERE), false));
    AloneGoes(holds, Recorded, Held(copied, Some(HERE), false), STORED);
    AloneGoes(holds, Keyed, STORED, STORED);
  }

  const SWITCHED := Held(map["there" := ENVELOPE], Some(HERE), true)

  lemma MoveBegins(holds: Blob -> bool)
    requires Closed(TWO_DISKS, holds) && holds(Unborn)
    ensures holds(Both(Granted, MoveRead(HERE), STORED))
  {
    StoredUpToTheAudit(holds);
    Extend(TWO_DISKS, holds, OnlyStorer(Granted, STORED), BeginMove(1, "there"), Both(Granted, MoveBegun, STORED));
    MoverGoes(holds, Granted, MoveBegun, STORED, MoveChecked, STORED);
    MoverGoes(holds, Granted, MoveChecked, STORED, MoveLocked, STORED);
    MoverGoes(holds, Granted, MoveLocked, STORED, MoveRead(HERE), STORED);
  }

  lemma MoveOvertakes(holds: Blob -> bool)
    requires Closed(TWO_DISKS, holds) && holds(Unborn)
    ensures holds(Both(Granted, MoveSwitched(HERE), SWITCHED))
  {
    var copied := Held(map["here" := ENVELOPE, "there" := ENVELOPE], Some(HERE), true);
    MoveBegins(holds);
    MoverGoes(holds, Granted, MoveRead(HERE), STORED, MoveFetched(HERE, ENVELOPE), STORED);
    MoverGoes(holds, Granted, MoveFetched(HERE, ENVELOPE), STORED, MoveWritten(HERE), copied);
    MoverGoes(holds, Granted, MoveWritten(HERE), copied, MoveSwitched(HERE), SWITCHED);
  }

  const TAKEN_BACK := Held(map["there" := ENVELOPE], None, false)

  lemma StoreTakesItBack(holds: Blob -> bool)
    requires Closed(TWO_DISKS, holds) && holds(Unborn)
    ensures holds(Both(StoreDone(false), MoveSwitched(HERE), TAKEN_BACK))
  {
    MoveOvertakes(holds);
    StorerGoes(holds, Granted, MoveSwitched(HERE), SWITCHED, SWITCHED);
    StorerGoes(holds, UndoCopy, MoveSwitched(HERE), SWITCHED, SWITCHED);
    StorerGoes(holds, UndoRecord, MoveSwitched(HERE), SWITCHED, SWITCHED.(record := None));
    StorerGoes(holds, UndoKey, MoveSwitched(HERE), SWITCHED.(record := None), TAKEN_BACK);
  }

  /** The blob is recorded at the policy asked for, its envelope is there, and nobody can open it. */
  predicate MovedButLost(b: Blob, tid: nat) {
    && tid in b.threads && b.threads[tid].Moving? && b.threads[tid].mpc == MoveDone(Moved)
    && b.record == Some(Record(b.threads[tid].newPolicy, false, "")) && b.threads[tid].newPolicy in b.copies
    && forall p :: p in b.copies ==> Opens(b, b.copies[p]) == None
  }

  const LOST := TAKEN_BACK.(record := Some(Record("there", false, "")))

  lemma MoveLosesTheBlob(holds: Blob -> bool)
    requires Closed(TWO_DISKS, holds) && holds(Unborn)
    ensures holds(Both(StoreDone(false), MoveDone(Moved), LOST))
  {
    StoreTakesItBack(holds);
    MoverGoes(holds, StoreDone(false), MoveSwitched(HERE), TAKEN_BACK, MoveRecorded, LOST);
    MoverGoes(holds, StoreDone(false), MoveRecorded, LOST, MoveUnlock(Moved), LOST);
    MoverGoes(holds, StoreDone(false), MoveUnlock(Moved), LOST, MoveDone(Moved), LOST);
  }

  /**
   StoreBlob waits for its audit event, the owner moves the blob, the event is
   refused and StoreBlob takes the record and the key away between the move's
   removal of the old copy and its new record: MoveBlob answers success for a
   blob that cannot be opened, and leaves its record behind.
   */
  lemma MoveReportsALostBlob(ref: string)
    ensures exists steps: seq<(string, Step)> ::
              Runnable(TWO_DISKS, map[], steps) && MovedButLost(BlobAt(Run(TWO_DISKS, map[], steps), ref), 1)
  {
    ReachableIsClosed(TWO_DISKS, ref);
    var holds := (b: Blob) => Reachable(TWO_DISKS, ref, b);
    MoveLosesTheBlob(holds);
    var steps: seq<(string, Step)> :| Runnable(TWO_DISKS, map[], steps) && BlobAt(Run(TWO_DISKS, map[], steps), ref) == Both(StoreDone(false), MoveDone(Moved), LOST);
    assert MovedButLost(BlobAt(Run(TWO_DISKS, map[], steps), ref), 1);
  }
}
