/**
 What each request does when it runs alone, as a function of the answers its calls
 get: the exact blob it leaves and the exact result, failures included.
 */
module StorageAlone {
  import opened Bytes
  import opened Wrappers
  import opened StorageMachine

  /** Whether each kind of call succeeds: the permission check (or StoreBlob's grant), the backend calls and the audit event. */
  datatype Answers = Answers(permitted: bool, read: bool, write: bool, erase: bool, undo: bool, audit: bool)

  const ALL_WELL := Answers(true, true, true, true, true, true)

  /** The answer that the request's next call gets. */
  function Answer(a: Answers, t: Thread): bool {
    match t
    case Storing(_, _, _, pc) =>
      (match pc
       case StoreBegun => a.write
       case Keyed => a.permitted
       case Granted => a.audit
       case UndoCopy => a.undo
       case _ => true)
    case Moving(_, pc) =>
      (match pc
       case MoveBegun => a.permitted
       case MoveRead(_) => a.read
       case MoveFetched(_, _) => a.write
       case MoveWritten(_) => a.erase
       case MoveUndo(_) => a.undo
       case MoveNoOp => a.audit
       case MoveRecorded => a.audit
       case _ => true)
    case Deleting(pc) =>
      (match pc
       case DeleteBegun => a.permitted
       case DeleteRead(_) => a.erase
       case KeyShredded(_) => a.erase
       case DeleteRecorded => a.audit
       case _ => true)
    case Reading(_, pc) =>
      (match pc
       case ReadBegun => a.permitted
       case GotRecord(_) => a.read
       case Opened(_) => a.audit
       case _ => true)
  }

  /** Request `tid` goes on for up to `n` steps and nobody else moves. */
  function Alone(cfg: Config, b: Blob, tid: nat, a: Answers, n: nat): Blob
    requires tid in b.threads
    decreases n
  {
    var step := Go(tid, Answer(a, b.threads[tid]));
    if n == 0 || !Enabled(cfg, b, step) then b else Alone(cfg, Apply(cfg, b, step), tid, a, n - 1)
  }

  // ----- Without the map of requests -----

  /** The blob, the place of the only request that moves, and whether it holds the lock. */
  datatype Solo = Solo(b: Blob, t: Thread, held: bool)

  function Put(s: Solo, tid: nat): Blob {
    s.b.(threads := s.b.threads[tid := s.t], lock := if s.held then Some(tid) else s.b.lock)
  }

  function SoloStep(cfg: Config, s: Solo, tid: nat, ok: bool): Solo {
    var op := OpFor(cfg, tid, s.t, ok);
    Solo(Perform(s.b, op).(lock := s.b.lock), Next(cfg, s.b, s.t, ok), op.Lock? || (s.held && !op.Unlock?))
  }

  function Left(t: Thread): nat {
    match t
    case Storing(_, _, _, pc) =>
      (match pc
       case StoreBegun => 8
       case Written => 7
       case Recorded => 6
       case Keyed => 5
       case Granted => 4
       case UndoCopy => 3
       case UndoRecord => 2
       case UndoKey => 1
       case StoreDone(_) => 0)
    case Moving(_, pc) =>
      (match pc
       case MoveBegun => 9
       case MoveChecked => 8
       case MoveLocked => 7
       case MoveRead(_) => 6
       case MoveFetched(_, _) => 5
       case MoveWritten(_) => 4
       case MoveSwitched(_) => 3
       case MoveRecorded => 2
       case MoveUndo(_) => 2
       case MoveNoOp => 2
       case MoveUnlock(_) => 1
       case MoveDone(_) => 0)
    case Deleting(pc) =>
      (match pc
       case DeleteBegun => 8
       case DeleteChecked => 7
       case DeleteLocked => 6
       case DeleteRead(_) => 5
       case CopyErased(_) => 4
       case KeyShredded(_) => 4
       case Tombstone(_) => 3
       case DeleteRecorded => 2
       case DeleteUnlock(_) => 1
       case DeleteDone(_) => 0)
    case Reading(_, pc) =>
      (match pc
       case ReadBegun => 6
       case ReadChecked => 5
       case GotRecord(_) => 4
       case Fetched(_) => 3
       case GotKey(_) => 2
       case Opened(_) => 1
       case ReadDone(_) => 0)
  }

  lemma NextIsCloser(cfg: Config, b: Blob, t: Thread, ok: bool)
    requires !Finished(t)
    ensures Left(Next(cfg, b, t, ok)) < Left(t)
  {
  }

  /** Where the request ends. */
  function End(cfg: Config, s: Solo, tid: nat, a: Answers): Solo
    decreases Left(s.t)
  {
    if Finished(s.t) then s
    else
      NextIsCloser(cfg, s.b, s.t, Answer(a, s.t));
      End(cfg, SoloStep(cfg, s, tid, Answer(a, s.t)), tid, a)
  }

  /** The lock is free but for the request itself, which has not asked for it twice. */
  predicate Free(s: Solo) {
    s.b.lock.None? && (WaitsForLock(s.t) || s.t == Deleting(DeleteBegun) || (s.t.Moving? && s.t.mpc.MoveBegun?) ==> !s.held)
  }

  lemma StaysFree(cfg: Config, s: Solo, tid: nat, ok: bool)
    requires Free(s) && !Finished(s.t)
    ensures Free(SoloStep(cfg, s, tid, ok))
  {
  }

  lemma SameNext(cfg: Config, s: Solo, tid: nat, ok: bool)
    ensures Next(cfg, Put(s, tid), s.t, ok) == Next(cfg, s.b, s.t, ok)
  {
  }

  lemma SameOp(cfg: Config, b: Blob, tid: nat, ok: bool)
    requires tid in b.threads
    ensures OpOf(cfg, b, tid, ok) == OpFor(cfg, tid, b.threads[tid], ok)
    ensures OpOf(cfg, b, tid, ok).Lock? ==> OpOf(cfg, b, tid, ok).tid == tid
  {
  }

  lemma PutAt(s: Solo, tid: nat, op: Op, t: Thread)
    requires s.b.lock.None? && (op.Lock? ==> op.tid == tid)
    ensures At(Put(s, tid), op, tid, t) == Put(Solo(Perform(s.b, op).(lock := s.b.lock), t, op.Lock? || (s.held && !op.Unlock?)), tid)
  {
    assert s.b.threads[tid := s.t][tid := t] == s.b.threads[tid := t];
  }

  lemma FreeToGo(cfg: Config, s: Solo, tid: nat, ok: bool)
    requires Free(s) && !Finished(s.t)
    ensures Enabled(cfg, Put(s, tid), Go(tid, ok))
  {
  }

  lemma GoIsSoloStep(cfg: Config, s: Solo, tid: nat, ok: bool)
    requires Enabled(cfg, Put(s, tid), Go(tid, ok)) && s.b.lock.None?
    ensures Apply(cfg, Put(s, tid), Go(tid, ok)) == Put(SoloStep(cfg, s, tid, ok), tid)
  {
    SameNext(cfg, s, tid, ok);
    SameOp(cfg, Put(s, tid), tid, ok);
    PutAt(s, tid, OpFor(cfg, tid, s.t, ok), Next(cfg, s.b, s.t, ok));
  }

  lemma AloneGoes(cfg: Config, b: Blob, tid: nat, a: Answers, n: nat)
    requires tid in b.threads && n > 0 && Enabled(cfg, b, Go(tid, Answer(a, b.threads[tid])))
    ensures var b' := Apply(cfg, b, Go(tid, Answer(a, b.threads[tid])));
            tid in b'.threads && Alone(cfg, b, tid, a, n) == Alone(cfg, b', tid, a, n - 1)
  {
  }

  lemma AloneStays(cfg: Config, b: Blob, tid: nat, a: Answers, n: nat)
    requires tid in b.threads && Finished(b.threads[tid])
    ensures Alone(cfg, b, tid, a, n) == b
  {
  }

  lemma AloneTakesStep(cfg: Config, s: Solo, tid: nat, a: Answers, n: nat) returns (s': Solo)
    requires Free(s) && !Finished(s.t) && n > 0
    ensures Free(s') && Left(s'.t) < Left(s.t) && End(cfg, s, tid, a) == End(cfg, s', tid, a)
    ensures Alone(cfg, Put(s, tid), tid, a, n) == Alone(cfg, Put(s', tid), tid, a, n - 1)
  {
    s' := SoloStep(cfg, s, tid, Answer(a, s.t));
    FreeToGo(cfg, s, tid, Answer(a, s.t));
    GoIsSoloStep(cfg, s, tid, Answer(a, s.t));
    AloneGoes(cfg, Put(s, tid), tid, a, n);
    NextIsCloser(cfg, s.b, s.t, Answer(a, s.t));
    StaysFree(cfg, s, tid, Answer(a, s.t));
  }

  lemma {:induction false} AloneEnds(cfg: Config, s: Solo, tid: nat, a: Answers, n: nat)
    requires Free(s) && n >= Left(s.t)
    ensures Alone(cfg, Put(s, tid), tid, a, n) == Put(End(cfg, s, tid, a), tid)
    decreases n
  {
    if Finished(s.t) {
      AloneStays(cfg, Put(s, tid), tid, a, n);
    } else {
      var s' := AloneTakesStep(cfg, s, tid, a, n);
      AloneEnds(cfg, s', tid, a, n - 1);
    }
  }

  /** A request that is under way and does not hold the lock, which is free. */
  lemma AloneFrom(cfg: Config, b: Blob, tid: nat, a: Answers, n: nat)
    requires tid in b.threads && b.lock.None? && n >= Left(b.threads[tid])
    ensures Alone(cfg, b, tid, a, n) == Put(End(cfg, Solo(b, b.threads[tid], false), tid, a), tid)
  {
    var s := Solo(b, b.threads[tid], false);
    assert b.threads[tid := b.threads[tid]] == b.threads;
    assert Put(s, tid) == b;
    AloneEnds(cfg, s, tid, a, n);
  }

  // ----- RetrieveBlob -----

  /** The stored bytes, if the read is permitted, every call succeeds, and the blob is there, undeleted and under its key. */
  function ReadAnswer(cfg: Config, b: Blob, a: Answers): Option<ByteString> {
    if a.permitted && a.read && a.audit && b.record.Some? && !b.record.value.deleted
       && b.record.value.policyId in cfg.policies && b.record.value.policyId in b.copies
       && b.keyHeld && b.keyLive && b.origin.Some? && b.copies[b.record.value.policyId].key == b.origin.value.key
    then Some(b.copies[b.record.value.policyId].data) else None
  }

  lemma NothingIsNothing(b: Blob)
    ensures Perform(b, Nothing) == b
  {
  }

  lemma ReadSteps(cfg: Config, b: Blob, tid: nat, after: bool, pc: ReadPc, a: Answers)
    requires !pc.ReadDone?
    ensures End(cfg, Solo(b, Reading(after, pc), false), tid, a) ==
            End(cfg, Solo(b, Reading(after, ReadNext(cfg, b, pc, Answer(a, Reading(after, pc)))), false), tid, a)
  {
    NothingIsNothing(b);
  }

  lemma ReadWithKey(cfg: Config, b: Blob, tid: nat, after: bool, s: Sealed, a: Answers)
    ensures End(cfg, Solo(b, Reading(after, Fetched(s)), false), tid, a) ==
            Solo(b, Reading(after, ReadDone(if b.keyHeld && b.keyLive && b.origin.Some? && b.origin.value.key == s.key && a.audit
                                            then Some(s.data) else None)), false)
  {
    ReadSteps(cfg, b, tid, after, Fetched(s), a);
    ReadSteps(cfg, b, tid, after, GotKey(s), a);
    ReadSteps(cfg, b, tid, after, Opened(s.data), a);
  }

  lemma ReadFromRecord(cfg: Config, b: Blob, tid: nat, after: bool, a: Answers)
    requires b.record.Some? && !b.record.value.deleted && a.permitted
    ensures End(cfg, Solo(b, Reading(after, GotRecord(b.record.value)), false), tid, a) ==
            Solo(b, Reading(after, ReadDone(ReadAnswer(cfg, b, a))), false)
  {
    var r := b.record.value;
    ReadSteps(cfg, b, tid, after, GotRecord(r), a);
    if r.policyId in b.copies {
      ReadWithKey(cfg, b, tid, after, b.copies[r.policyId], a);
    }
  }

  lemma ReadFromChecked(cfg: Config, b: Blob, tid: nat, after: bool, a: Answers)
    requires a.permitted
    ensures End(cfg, Solo(b, Reading(after, ReadChecked), false), tid, a) ==
            Solo(b, Reading(after, ReadDone(ReadAnswer(cfg, b, a))), false)
  {
    ReadSteps(cfg, b, tid, after, ReadChecked, a);
    if b.record.Some? && !b.record.value.deleted {
      ReadFromRecord(cfg, b, tid, after, a);
    }
  }

  lemma ReadEnd(cfg: Config, b: Blob, tid: nat, after: bool, pc: ReadPc, a: Answers)
    requires pc.ReadBegun? || (pc.ReadChecked? && a.permitted)
    ensures End(cfg, Solo(b, Reading(after, pc), false), tid, a) == Solo(b, Reading(after, ReadDone(ReadAnswer(cfg, b, a))), false)
  {
    ReadSteps(cfg, b, tid, after, pc, a);
    if a.permitted {
      ReadFromChecked(cfg, b, tid, after, a);
    }
  }

  /** RetrieveBlob alone answers the bytes or nothing, exactly as `ReadAnswer` says, and changes nothing. */
  lemma ReadAlone(cfg: Config, b: Blob, tid: nat, a: Answers)
    requires tid in b.threads && b.threads[tid].Reading? && b.lock.None?
    requires b.threads[tid].rpc.ReadBegun? || (b.threads[tid].rpc.ReadChecked? && a.permitted)
    ensures Alone(cfg, b, tid, a, 6) == b.(threads := b.threads[tid := b.threads[tid].(rpc := ReadDone(ReadAnswer(cfg, b, a)))])
  {
    AloneFrom(cfg, b, tid, a, 6);
    ReadEnd(cfg, b, tid, b.threads[tid].afterDelete, b.threads[tid].rpc, a);
  }

  // ----- MoveBlob -----

  /** The result of a move, by what stands against it. */
  function MoveResultOf(cfg: Config, b: Blob, to: string, a: Answers): MoveResult {
    if !a.permitted then MoveDenied
    else if b.record.None? || b.record.value.deleted then MoveNotFound
    else if to !in cfg.policies || b.record.value.policyId !in cfg.policies then MoveUnknownPolicy
    else if b.record.value.policyId == to then (if a.audit then Moved else MoveUnaudited)
    else if !a.read || b.record.value.policyId !in b.copies || !a.write then MoveAborted
    else if !a.erase then (if a.undo then MoveAborted else DoubleFailure)
    else if a.audit then Moved else MoveUnaudited
  }

  /** The move got as far as writing the new copy. */
  predicate Copies(cfg: Config, b: Blob, to: string, a: Answers) {
    && a.permitted && b.record.Some? && !b.record.value.deleted && to in cfg.policies && b.record.value.policyId in cfg.policies
    && b.record.value.policyId != to && a.read && b.record.value.policyId in b.copies && a.write
  }

  /** What a move leaves: the copy at the new policy and nowhere else it came from; or, if the old one could not be removed, both or the old one. */
  function AfterMove(cfg: Config, b: Blob, to: string, a: Answers): Blob {
    if !Copies(cfg, b, to, a) then b
    else
      var r := b.record.value;
      var both := b.copies[to := b.copies[r.policyId]];
      if a.erase then b.(copies := both - {r.policyId}, record := Some(r.(policyId := to)))
      else if a.undo then b.(copies := both - {to})
      else b.(copies := both, doubleFailed := true)
  }

  lemma MoveSteps(cfg: Config, b: Blob, tid: nat, to: string, pc: MovePc, a: Answers)
    requires !pc.MoveDone?
    ensures var op := MoveOp(tid, Moving(to, pc), Answer(a, Moving(to, pc)));
            End(cfg, Solo(b, Moving(to, pc), true), tid, a) ==
            End(cfg, Solo(Perform(b, op).(lock := b.lock),
                          Moving(to, MoveNext(cfg, b, Moving(to, pc), Answer(a, Moving(to, pc)))), !op.Unlock?), tid, a)
  {
  }

  lemma MoveUnlocks(cfg: Config, b: Blob, tid: nat, to: string, result: MoveResult, a: Answers)
    ensures End(cfg, Solo(b, Moving(to, MoveUnlock(result)), true), tid, a) == Solo(b, Moving(to, MoveDone(result)), false)
  {
  }

  lemma MoveAudits(cfg: Config, b: Blob, tid: nat, to: string, pc: MovePc, a: Answers)
    requires pc.MoveRecorded? || pc.MoveNoOp?
    ensures End(cfg, Solo(b, Moving(to, pc), true), tid, a) == Solo(b, Moving(to, MoveDone(if a.audit then Moved else MoveUnaudited)), false)
  {
    MoveSteps(cfg, b, tid, to, pc, a);
    MoveUnlocks(cfg, b, tid, to, if a.audit then Moved else MoveUnaudited, a);
    NothingIsNothing(b);
  }

  lemma MoveSwitches(cfg: Config, b: Blob, tid: nat, to: string, r: Record, a: Answers)
    ensures End(cfg, Solo(b, Moving(to, MoveSwitched(r)), true), tid, a) ==
            Solo(b.(record := Some(r.(policyId := to))), Moving(to, MoveDone(if a.audit then Moved else MoveUnaudited)), false)
  {
    MoveSteps(cfg, b, tid, to, MoveSwitched(r), a);
    MoveAudits(cfg, b.(record := Some(r.(policyId := to))), tid, to, MoveRecorded, a);
  }

  lemma MoveUndoes(cfg: Config, b: Blob, tid: nat, to: string, r: Record, a: Answers)
    ensures End(cfg, Solo(b, Moving(to, MoveUndo(r)), true), tid, a) ==
            Solo(if a.undo then b.(copies := b.copies - {to}) else b.(doubleFailed := true),
                 Moving(to, MoveDone(if a.undo then MoveAborted else DoubleFailure)), false)
  {
    MoveSteps(cfg, b, tid, to, MoveUndo(r), a);
    MoveUnlocks(cfg, if a.undo then b.(copies := b.copies - {to}) else b.(doubleFailed := true), tid, to,
                if a.undo then MoveAborted else DoubleFailure, a);
  }

  lemma MoveErases(cfg: Config, b: Blob, tid: nat, to: string, r: Record, a: Answers)
    requires a.erase
    ensures End(cfg, Solo(b, Moving(to, MoveWritten(r)), true), tid, a) ==
            End(cfg, Solo(b.(copies := b.copies - {r.policyId}), Moving(to, MoveSwitched(r)), true), tid, a)
  {
  }

  lemma MoveTurnsBack(cfg: Config, b: Blob, tid: nat, to: string, r: Record, a: Answers)
    requires !a.erase
    ensures End(cfg, Solo(b, Moving(to, MoveWritten(r)), true), tid, a) == End(cfg, Solo(b, Moving(to, MoveUndo(r)), true), tid, a)
  {
    NothingIsNothing(b);
  }

  lemma MoveFromWritten(cfg: Config, b: Blob, tid: nat, to: string, r: Record, a: Answers)
    ensures End(cfg, Solo(b, Moving(to, MoveWritten(r)), true), tid, a) ==
            (if a.erase then Solo(b.(copies := b.copies - {r.policyId}, record := Some(r.(policyId := to))),
                                  Moving(to, MoveDone(if a.audit then Moved else MoveUnaudited)), false)
             else Solo(if a.undo then b.(copies := b.copies - {to}) else b.(doubleFailed := true),
                       Moving(to, MoveDone(if a.undo then MoveAborted else DoubleFailure)), false))
  {
    if a.erase {
      MoveErases(cfg, b, tid, to, r, a);
      MoveSwitches(cfg, b.(copies := b.copies - {r.policyId}), tid, to, r, a);
    } else {
      MoveTurnsBack(cfg, b, tid, to, r, a);
      MoveUndoes(cfg, b, tid, to, r, a);
    }
  }

  lemma MoveGivesUp(cfg: Config, b: Blob, tid: nat, to: string, pc: MovePc, result: MoveResult, a: Answers)
    requires !pc.MoveDone? && !pc.MoveUnlock?
    requires MoveOp(tid, Moving(to, pc), Answer(a, Moving(to, pc))).Nothing?
    requires MoveNext(cfg, b, Moving(to, pc), Answer(a, Moving(to, pc))) == MoveUnlock(result)
    ensures End(cfg, Solo(b, Moving(to, pc), true), tid, a) == Solo(b, Moving(to, MoveDone(result)), false)
  {
    MoveSteps(cfg, b, tid, to, pc, a);
    NothingIsNothing(b);
    MoveUnlocks(cfg, b, tid, to, result, a);
  }

  lemma MoveReads(cfg: Config, b: Blob, tid: nat, to: string, r: Record, a: Answers)
    requires a.read && r.policyId in b.copies
    ensures End(cfg, Solo(b, Moving(to, MoveRead(r)), true), tid, a) ==
            End(cfg, Solo(b, Moving(to, MoveFetched(r, b.copies[r.policyId])), true), tid, a)
  {
    NothingIsNothing(b);
  }

  lemma MoveWrites(cfg: Config, b: Blob, tid: nat, to: string, r: Record, s: Sealed, a: Answers)
    requires a.write
    ensures End(cfg, Solo(b, Moving(to, MoveFetched(r, s)), true), tid, a) ==
            End(cfg, Solo(b.(copies := b.copies[to := s]), Moving(to, MoveWritten(r)), true), tid, a)
  {
  }

  lemma MoveCopies(cfg: Config, b: Blob, tid: nat, to: string, r: Record, a: Answers)
    requires b.record == Some(r) && !r.deleted && r.policyId != to && {r.policyId, to} <= cfg.policies && a.permitted
    ensures End(cfg, Solo(b, Moving(to, MoveRead(r)), true), tid, a) ==
            Solo(AfterMove(cfg, b, to, a), Moving(to, MoveDone(MoveResultOf(cfg, b, to, a))), false)
  {
    if !a.read || r.policyId !in b.copies {
      MoveGivesUp(cfg, b, tid, to, MoveRead(r), MoveAborted, a);
    } else if a.write {
      MoveReads(cfg, b, tid, to, r, a);
      MoveWrites(cfg, b, tid, to, r, b.copies[r.policyId], a);
      MoveFromWritten(cfg, b.(copies := b.copies[to := b.copies[r.policyId]]), tid, to, r, a);
    } else {
      MoveReads(cfg, b, tid, to, r, a);
      MoveGivesUp(cfg, b, tid, to, MoveFetched(r, b.copies[r.policyId]), MoveAborted, a);
    }
  }

  lemma MoveFinds(cfg: Config, b: Blob, tid: nat, to: string, a: Answers)
    requires b.record.Some? && !b.record.value.deleted && {b.record.value.policyId, to} <= cfg.policies
    ensures End(cfg, Solo(b, Moving(to, MoveLocked), true), tid, a) ==
            End(cfg, Solo(b, Moving(to, if b.record.value.policyId == to then MoveNoOp else MoveRead(b.record.value)), true), tid, a)
  {
    NothingIsNothing(b);
  }

  lemma MoveFromLocked(cfg: Config, b: Blob, tid: nat, to: string, a: Answers)
    requires a.permitted
    ensures End(cfg, Solo(b, Moving(to, MoveLocked), true), tid, a) ==
            Solo(AfterMove(cfg, b, to, a), Moving(to, MoveDone(MoveResultOf(cfg, b, to, a))), false)
  {
    if b.record.None? || b.record.value.deleted || !({b.record.value.policyId, to} <= cfg.policies) {
      MoveGivesUp(cfg, b, tid, to, MoveLocked, MoveResultOf(cfg, b, to, a), a);
    } else {
      MoveFinds(cfg, b, tid, to, a);
      if b.record.value.policyId == to {
        MoveAudits(cfg, b, tid, to, MoveNoOp, a);
      } else {
        MoveCopies(cfg, b, tid, to, b.record.value, a);
      }
    }
  }

  lemma MoveLocks(cfg: Config, b: Blob, tid: nat, to: string, a: Answers)
    ensures End(cfg, Solo(b, Moving(to, MoveChecked), false), tid, a) == End(cfg, Solo(b, Moving(to, MoveLocked), true), tid, a)
  {
    assert Perform(b, Lock(tid)).(lock := b.lock) == b;
  }

  lemma MoveEnd(cfg: Config, b: Blob, tid: nat, to: string, pc: MovePc, a: Answers)
    requires pc.MoveBegun? || (pc.MoveChecked? && a.permitted)
    ensures End(cfg, Solo(b, Moving(to, pc), false), tid, a) ==
            Solo(AfterMove(cfg, b, to, a), Moving(to, MoveDone(MoveResultOf(cfg, b, to, a))), false)
  {
    NothingIsNothing(b);
    if a.permitted {
      MoveFromLocked(cfg, b, tid, to, a);
      MoveLocks(cfg, b, tid, to, a);
    }
  }

  /** MoveBlob alone: result and blob, whichever of its calls fail. */
  lemma MoveAlone(cfg: Config, b: Blob, tid: nat, to: string, a: Answers)
    requires tid in b.threads && b.threads[tid].Moving? && b.threads[tid].newPolicy == to && b.lock.None?
    requires b.threads[tid].mpc.MoveBegun? || (b.threads[tid].mpc.MoveChecked? && a.permitted)
    ensures Alone(cfg, b, tid, a, 9) ==
            AfterMove(cfg, b, to, a).(threads := b.threads[tid := Moving(to, MoveDone(MoveResultOf(cfg, b, to, a)))])
  {
    AloneFrom(cfg, b, tid, a, 9);
    MoveEnd(cfg, b, tid, to, b.threads[tid].mpc, a);
  }

  // ----- DeleteBlob -----

  function DeleteResultOf(cfg: Config, b: Blob, a: Answers): DeleteResult {
    if !a.permitted then DeleteDenied
    else if b.record.None? then DeleteNotFound
    else if b.record.value.deleted then AlreadyDeleted
    else if b.record.value.policyId !in cfg.policies then DeleteUnknownPolicy
    else if b.record.value.policyId in cfg.physical && !a.erase then DeleteFailed
    else if b.record.value.policyId !in cfg.physical && !b.keyHeld then DeleteFailed
    else if a.audit then Deleted else DeleteUnaudited
  }

  /** The delete takes effect: the blob was there, and its copy could be erased or its key was there to shred. */
  predicate Erases(cfg: Config, b: Blob, a: Answers) {
    && a.permitted && b.record.Some? && !b.record.value.deleted && b.record.value.policyId in cfg.policies
    && if b.record.value.policyId in cfg.physical then a.erase else b.keyHeld
  }

  /** The key buffer is zeroed if the key map still had it. */
  function Keyless(b: Blob): Blob {
    b.(keyHeld := false, keyLive := b.keyLive && !b.keyHeld)
  }

  /** What a delete leaves: no copy at the record's policy (a shredded blob's may resist), no key, and a tombstone that says how. */
  function AfterDelete(cfg: Config, b: Blob, tid: nat, a: Answers): Blob {
    if !Erases(cfg, b, a) then b
    else
      var r := b.record.value;
      Keyless(b).(copies := if a.erase then b.copies - {r.policyId} else b.copies,
                  record := Some(Record(r.policyId, true, if r.policyId in cfg.physical then "physical_delete" else "crypto_shred")),
                  deleter := Some(tid))
  }

  lemma DeleteSteps(cfg: Config, b: Blob, tid: nat, pc: DeletePc, a: Answers)
    requires !pc.DeleteDone?
    ensures var op := DeleteOp(cfg, tid, pc, Answer(a, Deleting(pc)));
            End(cfg, Solo(b, Deleting(pc), true), tid, a) ==
            End(cfg, Solo(Perform(b, op).(lock := b.lock), Deleting(DeleteNext(cfg, b, pc, Answer(a, Deleting(pc)))), !op.Unlock?), tid, a)
  {
  }

  lemma DeleteUnlocks(cfg: Config, b: Blob, tid: nat, result: DeleteResult, a: Answers)
    ensures End(cfg, Solo(b, Deleting(DeleteUnlock(result)), true), tid, a) == Solo(b, Deleting(DeleteDone(result)), false)
  {
  }

  lemma DeleteBuries(cfg: Config, b: Blob, tid: nat, r: Record, a: Answers)
    ensures End(cfg, Solo(b, Deleting(Tombstone(r)), true), tid, a) ==
            Solo(b.(record := Some(r.(deleted := true)), deleter := Some(tid)),
                 Deleting(DeleteDone(if a.audit then Deleted else DeleteUnaudited)), false)
  {
    var b' := b.(record := Some(r.(deleted := true)), deleter := Some(tid));
    DeleteSteps(cfg, b, tid, Tombstone(r), a);
    DeleteSteps(cfg, b', tid, DeleteRecorded, a);
    NothingIsNothing(b');
    DeleteUnlocks(cfg, b', tid, if a.audit then Deleted else DeleteUnaudited, a);
  }

  lemma DeleteErases(cfg: Config, b: Blob, tid: nat, r: Record, a: Answers)
    requires r.policyId in cfg.physical && a.erase
    ensures End(cfg, Solo(b, Deleting(DeleteRead(r)), true), tid, a) ==
            End(cfg, Solo(b.(copies := b.copies - {r.policyId}), Deleting(CopyErased(r)), true), tid, a)
  {
  }

  lemma DeleteDropsKey(cfg: Config, b: Blob, tid: nat, r: Record, a: Answers)
    ensures End(cfg, Solo(b, Deleting(CopyErased(r)), true), tid, a) ==
            End(cfg, Solo(Keyless(b), Deleting(Tombstone(r.(mechanism := "physical_delete"))), true), tid, a)
  {
  }

  lemma PhysicalDelete(cfg: Config, b: Blob, tid: nat, r: Record, a: Answers)
    requires r.policyId in cfg.physical && a.erase
    ensures var b' := Keyless(b.(copies := b.copies - {r.policyId}));
            End(cfg, Solo(b, Deleting(DeleteRead(r)), true), tid, a) ==
            End(cfg, Solo(b', Deleting(Tombstone(r.(mechanism := "physical_delete"))), true), tid, a)
  {
    DeleteErases(cfg, b, tid, r, a);
    DeleteDropsKey(cfg, b.(copies := b.copies - {r.policyId}), tid, r, a);
  }

  lemma DeleteShreds(cfg: Config, b: Blob, tid: nat, r: Record, a: Answers)
    requires r.policyId !in cfg.physical && b.keyHeld
    ensures End(cfg, Solo(b, Deleting(DeleteRead(r)), true), tid, a) == End(cfg, Solo(Keyless(b), Deleting(KeyShredded(r)), true), tid, a)
  {
  }

  lemma DeleteTries(cfg: Config, b: Blob, tid: nat, r: Record, a: Answers)
    ensures End(cfg, Solo(b, Deleting(KeyShredded(r)), true), tid, a) ==
            End(cfg, Solo(b.(copies := if a.erase then b.copies - {r.policyId} else b.copies),
                          Deleting(Tombstone(r.(mechanism := "crypto_shred"))), true), tid, a)
  {
  }

  lemma CryptoShred(cfg: Config, b: Blob, tid: nat, r: Record, a: Answers)
    requires r.policyId !in cfg.physical && b.keyHeld
    ensures var b' := Keyless(b).(copies := if a.erase then b.copies - {r.policyId} else b.copies);
            End(cfg, Solo(b, Deleting(DeleteRead(r)), true), tid, a) ==
            End(cfg, Solo(b', Deleting(Tombstone(r.(mechanism := "crypto_shred"))), true), tid, a)
  {
    DeleteShreds(cfg, b, tid, r, a);
    DeleteTries(cfg, Keyless(b), tid, r, a);
  }

  lemma DeleteGivesUp(cfg: Config, b: Blob, tid: nat, pc: DeletePc, result: DeleteResult, a: Answers)
    requires !pc.DeleteDone? && !pc.DeleteUnlock?
    requires Perform(b, DeleteOp(cfg, tid, pc, Answer(a, Deleting(pc)))).(lock := b.lock) == b
    requires DeleteNext(cfg, b, pc, Answer(a, Deleting(pc))) == DeleteUnlock(result)
    ensures End(cfg, Solo(b, Deleting(pc), true), tid, a) == Solo(b, Deleting(DeleteDone(result)), false)
  {
    DeleteSteps(cfg, b, tid, pc, a);
    DeleteUnlocks(cfg, b, tid, result, a);
  }

  lemma DeleteFromRead(cfg: Config, b: Blob, tid: nat, r: Record, a: Answers)
    requires b.record == Some(r) && !r.deleted && r.policyId in cfg.policies && a.permitted && b.keyHeld == b.keyLive
    ensures End(cfg, Solo(b, Deleting(DeleteRead(r)), true), tid, a) ==
            Solo(AfterDelete(cfg, b, tid, a), Deleting(DeleteDone(DeleteResultOf(cfg, b, a))), false)
  {
    if r.policyId in cfg.physical && a.erase {
      PhysicalDelete(cfg, b, tid, r, a);
      DeleteBuries(cfg, Keyless(b.(copies := b.copies - {r.policyId})), tid, r.(mechanism := "physical_delete"), a);
    } else if r.policyId !in cfg.physical && b.keyHeld {
      CryptoShred(cfg, b, tid, r, a);
      DeleteBuries(cfg, Keyless(b).(copies := if a.erase then b.copies - {r.policyId} else b.copies), tid, r.(mechanism := "crypto_shred"), a);
    } else {
      DeleteGivesUp(cfg, b, tid, DeleteRead(r), DeleteFailed, a);
    }
  }

  lemma DeleteFinds(cfg: Config, b: Blob, tid: nat, a: Answers)
    requires b.record.Some? && !b.record.value.deleted && b.record.value.policyId in cfg.policies
    ensures End(cfg, Solo(b, Deleting(DeleteLocked), true), tid, a) == End(cfg, Solo(b, Deleting(DeleteRead(b.record.value)), true), tid, a)
  {
    NothingIsNothing(b);
  }

  lemma DeleteFromLocked(cfg: Config, b: Blob, tid: nat, a: Answers)
    requires a.permitted && b.keyHeld == b.keyLive
    ensures End(cfg, Solo(b, Deleting(DeleteLocked), true), tid, a) ==
            Solo(AfterDelete(cfg, b, tid, a), Deleting(DeleteDone(DeleteResultOf(cfg, b, a))), false)
  {
    if b.record.Some? && !b.record.value.deleted && b.record.value.policyId in cfg.policies {
      DeleteFinds(cfg, b, tid, a);
      DeleteFromRead(cfg, b, tid, b.record.value, a);
    } else {
      NothingIsNothing(b);
      DeleteGivesUp(cfg, b, tid, DeleteLocked, DeleteResultOf(cfg, b, a), a);
    }
  }

  lemma DeleteLocks(cfg: Config, b: Blob, tid: nat, a: Answers)
    ensures End(cfg, Solo(b, Deleting(DeleteChecked), false), tid, a) == End(cfg, Solo(b, Deleting(DeleteLocked), true), tid, a)
  {
    assert Perform(b, Lock(tid)).(lock := b.lock) == b;
  }

  lemma DeleteEnd(cfg: Config, b: Blob, tid: nat, pc: DeletePc, a: Answers)
    requires (pc.DeleteBegun? || (pc.DeleteChecked? && a.permitted)) && b.keyHeld == b.keyLive
    ensures End(cfg, Solo(b, Deleting(pc), false), tid, a) ==
            Solo(AfterDelete(cfg, b, tid, a), Deleting(DeleteDone(DeleteResultOf(cfg, b, a))), false)
  {
    NothingIsNothing(b);
    if a.permitted {
      DeleteFromLocked(cfg, b, tid, a);
      DeleteLocks(cfg, b, tid, a);
    }
  }

  /** DeleteBlob alone: result and blob, whichever of its calls fail. */
  lemma DeleteAlone(cfg: Config, b: Blob, tid: nat, a: Answers)
    requires tid in b.threads && b.threads[tid].Deleting? && b.lock.None? && b.keyHeld == b.keyLive
    requires b.threads[tid].dpc.DeleteBegun? || (b.threads[tid].dpc.DeleteChecked? && a.permitted)
    ensures Alone(cfg, b, tid, a, 8) ==
            AfterDelete(cfg, b, tid, a).(threads := b.threads[tid := Deleting(DeleteDone(DeleteResultOf(cfg, b, a)))])
  {
    AloneFrom(cfg, b, tid, a, 8);
    DeleteEnd(cfg, b, tid, b.threads[tid].dpc, a);
  }

  // ----- StoreBlob -----

  /** What StoreBlob leaves: the blob whole at its policy; or nothing that opens, and a copy only where the erasure failed too. */
  function AfterStore(policyId: string, key: nat, data: ByteString, tid: nat, a: Answers): Blob {
    var b := Unborn.(origin := Some(Origin(tid, key, data)));
    if !a.write then b
    else if a.permitted && a.audit then
      b.(copies := map[policyId := Sealed(key, data)], record := Some(Record(policyId, false, "")),
         keyHeld := true, keyLive := true, granted := true, returned := true)
    else b.(copies := if a.undo then map[] else map[policyId := Sealed(key, data)], granted := a.permitted, rolledBack := true)
  }

  lemma StoreSteps(cfg: Config, b: Blob, t: Thread, tid: nat, a: Answers)
    requires t.Storing? && !t.spc.StoreDone?
    ensures End(cfg, Solo(b, t, false), tid, a) ==
            End(cfg, Solo(Perform(b, StoreOp(t, Answer(a, t))), t.(spc := StoreNext(t.spc, Answer(a, t))), false), tid, a)
  {
  }

  lemma StoreShreds(cfg: Config, b: Blob, t: Thread, tid: nat, a: Answers)
    requires t.Storing? && t.spc.UndoKey?
    ensures End(cfg, Solo(b, t, false), tid, a) == Solo(Keyless(b), t.(spc := StoreDone(false)), false)
  {
  }

  lemma StoreForgets(cfg: Config, b: Blob, t: Thread, tid: nat, a: Answers)
    requires t.Storing? && t.spc.UndoRecord?
    ensures End(cfg, Solo(b, t, false), tid, a) == Solo(Keyless(b).(record := None), t.(spc := StoreDone(false)), false)
  {
    StoreSteps(cfg, b, t, tid, a);
    StoreShreds(cfg, b.(record := None), t.(spc := UndoKey), tid, a);
  }

  lemma StoreErases(cfg: Config, b: Blob, t: Thread, tid: nat, a: Answers)
    requires t.Storing? && t.spc.UndoCopy?
    ensures End(cfg, Solo(b, t, false), tid, a) ==
            End(cfg, Solo(b.(copies := if a.undo then b.copies - {t.policyId} else b.copies), t.(spc := UndoRecord), false), tid, a)
  {
  }

  lemma StoreUndoes(cfg: Config, b: Blob, t: Thread, tid: nat, a: Answers)
    requires t.Storing? && t.spc.UndoCopy?
    ensures End(cfg, Solo(b, t, false), tid, a) ==
            Solo(Keyless(b).(copies := if a.undo then b.copies - {t.policyId} else b.copies, record := None), t.(spc := StoreDone(false)), false)
  {
    StoreErases(cfg, b, t, tid, a);
    StoreForgets(cfg, b.(copies := if a.undo then b.copies - {t.policyId} else b.copies), t.(spc := UndoRecord), tid, a);
  }

  lemma StoreAudits(cfg: Config, b: Blob, t: Thread, tid: nat, a: Answers)
    requires t.Storing? && t.spc.Granted?
    ensures End(cfg, Solo(b, t, false), tid, a) ==
            if a.audit then Solo(b.(returned := true), t.(spc := StoreDone(true)), false)
            else Solo(Keyless(b).(copies := if a.undo then b.copies - {t.policyId} else b.copies, record := None, rolledBack := true),
                      t.(spc := StoreDone(false)), false)
  {
    StoreSteps(cfg, b, t, tid, a);
    if !a.audit {
      StoreUndoes(cfg, b.(rolledBack := true), t.(spc := UndoCopy), tid, a);
    }
  }

  lemma StoreGrants(cfg: Config, b: Blob, t: Thread, tid: nat, a: Answers)
    requires t.Storing? && t.spc.Keyed? && a.permitted
    ensures End(cfg, Solo(b, t, false), tid, a) == End(cfg, Solo(b.(granted := true), t.(spc := Granted), false), tid, a)
  {
  }

  lemma StoreRefused(cfg: Config, b: Blob, t: Thread, tid: nat, a: Answers)
    requires t.Storing? && t.spc.Keyed? && !a.permitted
    ensures End(cfg, Solo(b, t, false), tid, a) == End(cfg, Solo(b.(rolledBack := true), t.(spc := UndoCopy), false), tid, a)
  {
  }

  lemma StoreKeeps(cfg: Config, b: Blob, t: Thread, tid: nat, a: Answers)
    requires t.Storing? && t.spc.Recorded?
    ensures End(cfg, Solo(b, t, false), tid, a) == End(cfg, Solo(b.(keyHeld := true, keyLive := true), t.(spc := Keyed), false), tid, a)
  {
  }

  lemma StoreRecords(cfg: Config, b: Blob, t: Thread, tid: nat, a: Answers)
    requires t.Storing? && t.spc.Written?
    ensures End(cfg, Solo(b, t, false), tid, a) ==
            End(cfg, Solo(b.(record := Some(Record(t.policyId, false, ""))), t.(spc := Recorded), false), tid, a)
  {
  }

  lemma StoreWrites(cfg: Config, b: Blob, t: Thread, tid: nat, a: Answers)
    requires t.Storing? && t.spc.StoreBegun? && a.write
    ensures End(cfg, Solo(b, t, false), tid, a) ==
            End(cfg, Solo(b.(copies := b.copies[t.policyId := Sealed(t.key, t.data)]), t.(spc := Written), false), tid, a)
  {
  }

  lemma StoreFromKeyed(cfg: Config, b: Blob, t: Thread, tid: nat, a: Answers)
    requires t.Storing? && t.spc.Keyed?
    ensures End(cfg, Solo(b, t, false), tid, a) ==
            if a.permitted && a.audit then Solo(b.(granted := true, returned := true), t.(spc := StoreDone(true)), false)
            else Solo(Keyless(b).(copies := if a.undo then b.copies - {t.policyId} else b.copies, record := None,
                                  granted := b.granted || a.permitted, rolledBack := true), t.(spc := StoreDone(false)), false)
  {
    if a.permitted {
      StoreGrants(cfg, b, t, tid, a);
      StoreAudits(cfg, b.(granted := true), t.(spc := Granted), tid, a);
    } else {
      StoreRefused(cfg, b, t, tid, a);
      StoreUndoes(cfg, b.(rolledBack := true), t.(spc := UndoCopy), tid, a);
    }
  }

  lemma StoreFromWritten(cfg: Config, b: Blob, t: Thread, tid: nat, a: Answers)
    requires t.Storing? && t.spc.Written?
    ensures var b' := b.(record := Some(Record(t.policyId, false, "")), keyHeld := true, keyLive := true);
            End(cfg, Solo(b, t, false), tid, a) == End(cfg, Solo(b', t.(spc := Keyed), false), tid, a)
  {
    StoreRecords(cfg, b, t, tid, a);
    StoreKeeps(cfg, b.(record := Some(Record(t.policyId, false, ""))), t.(spc := Recorded), tid, a);
  }

  lemma StoreEnd(cfg: Config, policyId: string, key: nat, data: ByteString, tid: nat, a: Answers)
    ensures End(cfg, Solo(Unborn.(origin := Some(Origin(tid, key, data))), Storing(policyId, key, data, StoreBegun), false), tid, a) ==
            Solo(AfterStore(policyId, key, data, tid, a), Storing(policyId, key, data, StoreDone(a.write && a.permitted && a.audit)), false)
  {
    var b := Unborn.(origin := Some(Origin(tid, key, data)));
    var t := Storing(policyId, key, data, StoreBegun);
    if a.write {
      StoreWrites(cfg, b, t, tid, a);
      var b1 := b.(copies := map[policyId := Sealed(key, data)]);
      assert b.copies[policyId := Sealed(key, data)] == b1.copies && b1.copies - {policyId} == map[];
      StoreFromWritten(cfg, b1, t.(spc := Written), tid, a);
      StoreFromKeyed(cfg, b1.(record := Some(Record(policyId, false, "")), keyHeld := true, keyLive := true), t.(spc := Keyed), tid, a);
    } else {
      NothingIsNothing(b);
      StoreSteps(cfg, b, t, tid, a);
    }
  }

  /** StoreBlob alone succeeds exactly when write, grant and audit event do; then the blob is whole at its policy, and otherwise nothing opens. */
  lemma StoreAlone(cfg: Config, tid: nat, policyId: string, key: nat, data: ByteString, a: Answers)
    requires policyId in cfg.policies && data != []
    ensures Enabled(cfg, Unborn, BeginStore(tid, policyId, key, data))
    ensures Alone(cfg, Apply(cfg, Unborn, BeginStore(tid, policyId, key, data)), tid, a, 8) ==
            AfterStore(policyId, key, data, tid, a).(threads :=
              map[tid := Storing(policyId, key, data, StoreDone(a.write && a.permitted && a.audit))])
  {
    var b := Apply(cfg, Unborn, BeginStore(tid, policyId, key, data));
    var t := Storing(policyId, key, data, StoreBegun);
    assert b.threads == map[tid := t];
    var s := Solo(Unborn.(origin := Some(Origin(tid, key, data))), t, false);
    assert Put(s, tid) == b;
    AloneEnds(cfg, s, tid, a, 8);
    StoreEnd(cfg, policyId, key, data, tid, a);
  }
}
