/**
 Storage: storing, moving, deleting and reading a blob, step by step.

 Everything the service keeps about one blob reference is gathered in `Blob`:
 what each policy's backend holds under it, its record, its wrapping key, its
 operation lock, and the requests in flight on it.  Requests on different
 references touch nothing in common.  Every backend call, permission check and
 audit event may fail; a failed backend call has no effect.

 Encryption is ideal: an envelope opens exactly under the key that sealed it.
 */
module StorageMachine {
  import opened Bytes
  import opened Wrappers

  datatype Sealed = Sealed(key: nat, data: ByteString)

  datatype Record = Record(policyId: string, deleted: bool, mechanism: string)

  /** The configured policies, each with a backend of its own, and those whose delete is physical. */
  datatype Config = Config(policies: set<string>, physical: set<string>)

  datatype StorePc =
    | StoreBegun | Written | Recorded | Keyed | Granted
    | UndoCopy | UndoRecord | UndoKey | StoreDone(ok: bool)

  datatype MoveResult = Moved | MoveNotFound | MoveUnknownPolicy | MoveDenied | MoveAborted | DoubleFailure | MoveUnaudited

  datatype MovePc =
    | MoveBegun | MoveChecked | MoveLocked | MoveNoOp
    | MoveRead(r: Record) | MoveFetched(r: Record, sealed: Sealed) | MoveWritten(r: Record) | MoveUndo(r: Record)
    | MoveSwitched(r: Record) | MoveRecorded | MoveUnlock(result: MoveResult) | MoveDone(result: MoveResult)

  datatype DeleteResult = Deleted | DeleteNotFound | AlreadyDeleted | DeleteUnknownPolicy | DeleteDenied | DeleteFailed | DeleteUnaudited

  datatype DeletePc =
    | DeleteBegun | DeleteChecked | DeleteLocked | DeleteRead(r: Record)
    | CopyErased(r: Record) | KeyShredded(r: Record) | Tombstone(r: Record)
    | DeleteRecorded | DeleteUnlock(result: DeleteResult) | DeleteDone(result: DeleteResult)

  datatype ReadPc =
    | ReadBegun | ReadChecked | GotRecord(r: Record) | Fetched(sealed: Sealed) | GotKey(sealed: Sealed)
    | Opened(data: ByteString) | ReadDone(answer: Option<ByteString>)

  /** `afterDelete` remembers whether the read began after a delete had succeeded. */
  datatype Thread =
    | Storing(policyId: string, key: nat, data: ByteString, spc: StorePc)
    | Moving(newPolicy: string, mpc: MovePc)
    | Deleting(dpc: DeletePc)
    | Reading(afterDelete: bool, rpc: ReadPc)

  /** The request that stored the blob, and what it stored. */
  datatype Origin = Origin(storer: nat, key: nat, data: ByteString)

  /**
   `keyHeld`: the key map has an entry; `keyLive`: its buffer has not been zeroed.
   `granted`: the owner's grant is in effect; `returned` and `rolledBack`: how
   StoreBlob went on from there.
   */
  datatype Blob = Blob(copies: map<string, Sealed>, record: Option<Record>, keyHeld: bool, keyLive: bool,
                       lock: Option<nat>, threads: map<nat, Thread>,
                       origin: Option<Origin>, granted: bool, returned: bool, rolledBack: bool,
                       doubleFailed: bool, deleter: Option<nat>)

  const Unborn := Blob(map[], None, false, false, None, map[], None, false, false, false, false, None)

  datatype Step =
    | BeginStore(tid: nat, policyId: string, key: nat, data: ByteString)
    | BeginMove(tid: nat, newPolicy: string)
    | BeginDelete(tid: nat)
    | BeginRead(tid: nat)
    | Go(tid: nat, ok: bool)
    | GrantedLate(tid: nat)

  predicate Finished(t: Thread) {
    match t
    case Storing(_, _, _, pc) => pc.StoreDone?
    case Moving(_, pc) => pc.MoveDone?
    case Deleting(pc) => pc.DeleteDone?
    case Reading(_, pc) => pc.ReadDone?
  }

  predicate WaitsForLock(t: Thread) {
    (t.Moving? && t.mpc.MoveChecked?) || (t.Deleting? && t.dpc.DeleteChecked?)
  }

  /**
   A blob reference is fresh when StoreBlob generates it.  Its record can be
   listed by the owner before StoreBlob has answered, but until the owner's grant
   is in effect every request on it is denied.  `GrantedLate` is the grant that
   takes effect and still reports an error.
   */
  predicate Enabled(cfg: Config, b: Blob, step: Step) {
    match step
    case BeginStore(tid, policyId, _, data) => b.threads == map[] && b.origin == None && policyId in cfg.policies && data != []
    case Go(tid, _) => tid in b.threads && !Finished(b.threads[tid]) && (WaitsForLock(b.threads[tid]) ==> b.lock == None)
    case GrantedLate(tid) => tid in b.threads && b.threads[tid].Storing? && b.threads[tid].spc.Keyed?
    case _ => step.tid !in b.threads && (b.granted || b.origin == None)
  }

  /** What one step does to the backends, the record store, the key map, the lock and the history fields. */
  datatype Op =
    | Nothing
    | Write(policyId: string, sealed: Sealed) | Erase(policyId: string)
    | PutRecord(r: Record) | Bury(tid: nat, r: Record) | DropRecord
    | KeepKey | DestroyKey
    | Lock(tid: nat) | Unlock
    | Grant | LateGrant | Return | RollBack | Duplicate

  /** Destroying the key zeroes the buffer that the map holds; without an entry it does nothing. */
  function Perform(b: Blob, op: Op): Blob {
    b.(copies := if op.Write? then b.copies[op.policyId := op.sealed] else if op.Erase? then b.copies - {op.policyId} else b.copies,
       record := if op.PutRecord? || op.Bury? then Some(op.r) else if op.DropRecord? then None else b.record,
       keyHeld := op.KeepKey? || (b.keyHeld && !op.DestroyKey?),
       keyLive := op.KeepKey? || (b.keyLive && !(op.DestroyKey? && b.keyHeld)),
       lock := if op.Lock? then Some(op.tid) else if op.Unlock? then None else b.lock,
       granted := b.granted || op.Grant? || op.LateGrant?,
       returned := b.returned || op.Return?,
       rolledBack := b.rolledBack || op.RollBack? || op.LateGrant?,
       doubleFailed := b.doubleFailed || op.Duplicate?,
       deleter := if op.Bury? then Some(op.tid) else b.deleter)
  }

  /** The blob after `op`, with the request `tid` now at `t`. */
  function At(b: Blob, op: Op, tid: nat, t: Thread): Blob {
    Perform(b, op).(threads := b.threads[tid := t])
  }

  function Apply(cfg: Config, b: Blob, step: Step): Blob
    requires Enabled(cfg, b, step)
  {
    match step
    case BeginStore(tid, policyId, key, data) =>
      At(b.(origin := Some(Origin(tid, key, data))), Nothing, tid, Storing(policyId, key, data, StoreBegun))
    case BeginMove(tid, newPolicy) => At(b, Nothing, tid, Moving(newPolicy, MoveBegun))
    case BeginDelete(tid) => At(b, Nothing, tid, Deleting(DeleteBegun))
    case BeginRead(tid) => At(b, Nothing, tid, Reading(b.deleter.Some?, ReadBegun))
    case Go(tid, ok) => At(b, OpOf(cfg, b, tid, ok), tid, Next(cfg, b, b.threads[tid], ok))
    case GrantedLate(tid) => At(b, LateGrant, tid, b.threads[tid].(spc := UndoCopy))
  }

  /** What the next step of a request does to the blob, and where the request is then. */
  function OpOf(cfg: Config, b: Blob, tid: nat, ok: bool): Op
    requires tid in b.threads
  {
    OpFor(cfg, tid, b.threads[tid], ok)
  }

  function OpFor(cfg: Config, tid: nat, t: Thread, ok: bool): Op {
    match t
    case Storing(_, _, _, _) => StoreOp(t, ok)
    case Moving(_, _) => MoveOp(tid, t, ok)
    case Deleting(pc) => DeleteOp(cfg, tid, pc, ok)
    case Reading(_, _) => Nothing
  }

  function Next(cfg: Config, b: Blob, t: Thread, ok: bool): Thread {
    match t
    case Storing(_, _, _, pc) => t.(spc := StoreNext(pc, ok))
    case Moving(_, _) => t.(mpc := MoveNext(cfg, b, t, ok))
    case Deleting(pc) => t.(dpc := DeleteNext(cfg, b, pc, ok))
    case Reading(_, pc) => t.(rpc := ReadNext(cfg, b, pc, ok))
  }

  /** StoreBlob: write, record, keep the key, grant, audit; undo everything when the grant or the audit fails. */
  function StoreOp(t: Thread, ok: bool): Op
    requires t.Storing?
  {
    match t.spc
    case StoreBegun => if ok then Write(t.policyId, Sealed(t.key, t.data)) else Nothing
    case Written => PutRecord(Record(t.policyId, false, ""))
    case Recorded => KeepKey
    case Keyed => if ok then Grant else RollBack
    case Granted => if ok then Return else RollBack
    case UndoCopy => if ok then Erase(t.policyId) else Nothing
    case UndoRecord => DropRecord
    case UndoKey => DestroyKey
    case StoreDone(_) => Nothing
  }

  function StoreNext(pc: StorePc, ok: bool): StorePc {
    match pc
    case StoreBegun => if ok then Written else StoreDone(false)
    case Written => Recorded
    case Recorded => Keyed
    case Keyed => if ok then Granted else UndoCopy
    case Granted => if ok then StoreDone(true) else UndoCopy
    case UndoCopy => UndoRecord
    case UndoRecord => UndoKey
    case UndoKey => StoreDone(false)
    case StoreDone(done) => StoreDone(done)
  }

  /** MoveBlob, from the permission check to the release of the lock. */
  function MoveOp(tid: nat, t: Thread, ok: bool): Op
    requires t.Moving?
  {
    match t.mpc
    case MoveChecked => Lock(tid)
    case MoveFetched(r, sealed) => if ok then Write(t.newPolicy, sealed) else Nothing
    case MoveWritten(r) => if ok then Erase(r.policyId) else Nothing
    case MoveUndo(r) => if ok then Erase(t.newPolicy) else Duplicate
    case MoveSwitched(r) => PutRecord(r.(policyId := t.newPolicy))
    case MoveUnlock(_) => Unlock
    case _ => Nothing
  }

  function MoveNext(cfg: Config, b: Blob, t: Thread, ok: bool): MovePc
    requires t.Moving?
  {
    match t.mpc
    case MoveBegun => if ok then MoveChecked else MoveDone(MoveDenied)
    case MoveChecked => MoveLocked
    case MoveLocked =>
      if b.record.None? || b.record.value.deleted then MoveUnlock(MoveNotFound)
      else if t.newPolicy !in cfg.policies || b.record.value.policyId !in cfg.policies then MoveUnlock(MoveUnknownPolicy)
      else if b.record.value.policyId == t.newPolicy then MoveNoOp
      else MoveRead(b.record.value)
    case MoveNoOp => MoveUnlock(if ok then Moved else MoveUnaudited)
    case MoveRead(r) => if ok && r.policyId in b.copies then MoveFetched(r, b.copies[r.policyId]) else MoveUnlock(MoveAborted)
    case MoveFetched(r, _) => if ok then MoveWritten(r) else MoveUnlock(MoveAborted)
    case MoveWritten(r) => if ok then MoveSwitched(r) else MoveUndo(r)
    case MoveUndo(_) => MoveUnlock(if ok then MoveAborted else DoubleFailure)
    case MoveSwitched(_) => MoveRecorded
    case MoveRecorded => MoveUnlock(if ok then Moved else MoveUnaudited)
    case MoveUnlock(result) => MoveDone(result)
    case MoveDone(result) => MoveDone(result)
  }

  /** DeleteBlob: erase the copy and drop the key, or shred the key and try to erase, then leave a tombstone. */
  function DeleteOp(cfg: Config, tid: nat, pc: DeletePc, ok: bool): Op {
    match pc
    case DeleteChecked => Lock(tid)
    case DeleteRead(r) =>
      if r.policyId in cfg.physical then (if ok then Erase(r.policyId) else Nothing) else DestroyKey
    case CopyErased(_) => DestroyKey
    case KeyShredded(r) => if ok then Erase(r.policyId) else Nothing
    case Tombstone(r) => Bury(tid, r.(deleted := true))
    case DeleteUnlock(_) => Unlock
    case _ => Nothing
  }

  function DeleteNext(cfg: Config, b: Blob, pc: DeletePc, ok: bool): DeletePc {
    match pc
    case DeleteBegun => if ok then DeleteChecked else DeleteDone(DeleteDenied)
    case DeleteChecked => DeleteLocked
    case DeleteLocked =>
      if b.record.None? then DeleteUnlock(DeleteNotFound)
      else if b.record.value.deleted then DeleteUnlock(AlreadyDeleted)
      else if b.record.value.policyId !in cfg.policies then DeleteUnlock(DeleteUnknownPolicy)
      else DeleteRead(b.record.value)
    case DeleteRead(r) =>
      if r.policyId in cfg.physical then (if ok then CopyErased(r) else DeleteUnlock(DeleteFailed))
      else if b.keyHeld then KeyShredded(r) else DeleteUnlock(DeleteFailed)
    case CopyErased(r) => Tombstone(r.(mechanism := "physical_delete"))
    case KeyShredded(r) => Tombstone(r.(mechanism := "crypto_shred"))
    case Tombstone(_) => DeleteRecorded
    case DeleteRecorded => DeleteUnlock(if ok then Deleted else DeleteUnaudited)
    case DeleteUnlock(result) => DeleteDone(result)
    case DeleteDone(result) => DeleteDone(result)
  }

  /** RetrieveBlob takes no lock; the key buffer it obtained may be zeroed before it is used. */
  function ReadNext(cfg: Config, b: Blob, pc: ReadPc, ok: bool): ReadPc {
    match pc
    case ReadBegun => if ok then ReadChecked else ReadDone(None)
    case ReadChecked => if b.record.None? || b.record.value.deleted then ReadDone(None) else GotRecord(b.record.value)
    case GotRecord(r) =>
      if r.policyId in cfg.policies && ok && r.policyId in b.copies then Fetched(b.copies[r.policyId]) else ReadDone(None)
    case Fetched(sealed) => if b.keyHeld then GotKey(sealed) else ReadDone(None)
    case GotKey(sealed) =>
      if b.keyLive && b.origin.Some? && b.origin.value.key == sealed.key then Opened(sealed.data) else ReadDone(None)
    case Opened(data) => ReadDone(if ok then Some(data) else None)
    case ReadDone(answer) => ReadDone(answer)
  }

  // ----- The whole service -----

  type System = map<string, Blob>

  function BlobAt(sys: System, ref: string): Blob {
    if ref in sys then sys[ref] else Unborn
  }

  predicate Runnable(cfg: Config, sys: System, steps: seq<(string, Step)>)
    decreases |steps|
  {
    steps == [] ||
    (Enabled(cfg, BlobAt(sys, steps[0].0), steps[0].1) &&
     Runnable(cfg, sys[steps[0].0 := Apply(cfg, BlobAt(sys, steps[0].0), steps[0].1)], steps[1..]))
  }

  function Run(cfg: Config, sys: System, steps: seq<(string, Step)>): System
    requires Runnable(cfg, sys, steps)
    decreases |steps|
  {
    if steps == [] then sys
    else Run(cfg, sys[steps[0].0 := Apply(cfg, BlobAt(sys, steps[0].0), steps[0].1)], steps[1..])
  }
}
