/**
 What becomes of a file's record over a sequence of completed calls.

 A call that changes a record reads it first, and takes the mutex, or just
 writes, some time later; so it may write back a record that other calls have
 changed in between.  A sequence of calls therefore says for each of them in
 which earlier state its record was read.
 */
module FileHistory {
  import opened Wrappers
  import opened Permissions
  import opened PermissionEffects
  import opened FileObjects

  /** The records, the versions and the blobs that are gone. */
  datatype Contents = Contents(files: map<string, FileRecord>, versions: map<string, seq<VersionRecord>>, deleted: set<string>)

  /**
   A completed call: one that recorded a new file; one that read a record in state
   `at` and later wrote its record; a DeleteFileObject and whether it succeeded; or
   one that wrote no record.
   */
  datatype Call =
    | Create(created: FileRecord)
    | Write(at: nat, read: FileRecord, written: FileRecord)
    | Delete(at: nat, read: FileRecord, ok: bool)
    | Other

  predicate AllGone(vs: seq<VersionRecord>, deleted: set<string>) {
    forall v :: v in vs ==> v.blobRef in deleted
  }

  /** Some version of the file has lost its content. */
  predicate PartlyDeleted(c: Contents, f: string) {
    f in c.versions && exists v :: v in c.versions[f] && v.blobRef in c.deleted
  }

  function VersionsOf(c: Contents, f: string): seq<VersionRecord> {
    if f in c.versions then c.versions[f] else []
  }

  /** The record was the file's in state `at`. */
  predicate ReadAt(past: seq<Contents>, at: nat, fo: FileRecord) {
    at < |past| && fo.fileObjectId in past[at].files && past[at].files[fo.fileObjectId] == fo
  }

  /** Versions are added and blobs are lost, never the other way round. */
  ghost predicate Grows(c: Contents, c': Contents) {
    && c.deleted <= c'.deleted
    && (forall f :: f in c.versions ==> f in c'.versions && c.versions[f] <= c'.versions[f])
  }

  predicate SameFile(a: FileRecord, b: FileRecord) {
    a.fileObjectId == b.fileObjectId && a.owner == b.owner && a.deleted == b.deleted
  }

  /** The record a call writes. */
  function Written(call: Call): Option<FileRecord> {
    match call
    case Create(fo) => Some(fo)
    case Write(_, _, written) => Some(written)
    case Delete(_, read, ok) => if ok then Some(read.(deleted := true)) else None
    case Other => None
  }

  /** What a call does to the last of the states before it. */
  ghost predicate CallDone(past: seq<Contents>, call: Call, c': Contents)
    requires |past| > 0
  {
    var c := past[|past| - 1];
    && Grows(c, c')
    && c'.files == (match Written(call) case Some(fo) => c.files[fo.fileObjectId := fo] case None => c.files)
    && match call
       case Create(fo) => fo.fileObjectId !in c.files && !fo.deleted
       case Write(at, read, written) => ReadAt(past, at, read) && SameFile(read, written)
       case Delete(at, read, ok) =>
         ReadAt(past, at, read) &&
         (ok ==> !read.deleted && read.fileObjectId in c'.versions && !PartlyDeleted(c, read.fileObjectId)
                 && AllGone(c'.versions[read.fileObjectId], c'.deleted))
       case Other => true
  }

  /** Records are filed under their own id. */
  ghost predicate KeyedFiles(files: map<string, FileRecord>) {
    forall f :: f in files ==> files[f].fileObjectId == f
  }

  ghost predicate Calls(states: seq<Contents>, calls: seq<Call>) {
    && |states| == |calls| + 1 && KeyedFiles(states[0].files)
    && forall i :: 0 <= i < |calls| ==> CallDone(states[..i + 1], calls[i], states[i + 1])
  }

  lemma CallsExtend(states: seq<Contents>, calls: seq<Call>, call: Call, c': Contents)
    requires Calls(states, calls) && CallDone(states, call, c')
    ensures Calls(states + [c'], calls + [call])
  {
    var states', calls' := states + [c'], calls + [call];
    forall i | 0 <= i < |calls'| ensures CallDone(states'[..i + 1], calls'[i], states'[i + 1]) {
      if i < |calls| {
        assert CallDone(states[..i + 1], calls[i], states[i + 1]);
        assert states'[..i + 1] == states[..i + 1];
      } else {
        assert states'[..i + 1] == states;
      }
    }
  }

  /** A file once recorded stays recorded under its id, with its owner. */
  lemma {:induction false} FilesPersist(states: seq<Contents>, calls: seq<Call>, i: nat, j: nat, f: string)
    requires Calls(states, calls) && i <= j < |states| && f in states[i].files
    ensures f in states[j].files && states[j].files[f].owner == states[i].files[f].owner
    ensures states[i].files[f].fileObjectId == f
    decreases j, 0
  {
    if i < j {
      FilesPersist(states, calls, i, j - 1, f);
      assert CallDone(states[..j], calls[j - 1], states[j]);
      if calls[j - 1].Write? || calls[j - 1].Delete? {
        WriterKeepsOwner(states, calls, j - 1, calls[j - 1].at, calls[j - 1].read, f);
      }
    } else if j > 0 {
      assert CallDone(states[..j], calls[j - 1], states[j]);
      if f in states[j - 1].files {
        FilesPersist(states, calls, j - 1, j - 1, f);
      }
    }
  }

  lemma {:induction false} WriterKeepsOwner(states: seq<Contents>, calls: seq<Call>, j: nat, at: nat, fo: FileRecord, f: string)
    requires Calls(states, calls) && j < |calls| && ReadAt(states[..j + 1], at, fo) && f in states[j].files
    ensures fo.fileObjectId == f ==> fo.owner == states[j].files[f].owner
    decreases j, 1
  {
    FilesPersist(states, calls, at, j, fo.fileObjectId);
  }

  // ----- Content, once gone -----

  /** Once some version of a file is gone, whatever calls follow, no deletion of the file succeeds. */
  lemma {:induction false} PartialDeletionsNeverFinish(states: seq<Contents>, calls: seq<Call>, f: string, i: nat, j: nat)
    requires Calls(states, calls) && i <= j < |calls| && PartlyDeleted(states[i], f)
    ensures PartlyDeleted(states[j], f) && !Deletes(calls[j], f)
    decreases j
  {
    if i < j {
      PartialDeletionsNeverFinish(states, calls, f, i, j - 1);
      var v :| v in states[j - 1].versions[f] && v.blobRef in states[j - 1].deleted;
      assert CallDone(states[..j], calls[j - 1], states[j]);
      assert v in states[j].versions[f];
    }
    assert CallDone(states[..j + 1], calls[j], states[j + 1]);
  }

  // ----- The deletion mark -----

  /** The call is a deletion of the file that succeeds. */
  predicate Deletes(call: Call, f: string) {
    call.Delete? && call.ok && call.read.fileObjectId == f
  }

  predicate Writes(call: Call, f: string) {
    Written(call).Some? && Written(call).value.fileObjectId == f
  }

  /** Of the calls before state `j`, number `k` is the last that wrote the file's record. */
  predicate LastWrite(calls: seq<Call>, f: string, k: nat, j: nat) {
    k < j <= |calls| && Writes(calls[k], f) && forall l :: k < l < j ==> !Writes(calls[l], f)
  }

  /** The call wrote back a record that it had read while the file was undeleted. */
  predicate WroteUndeleted(states: seq<Contents>, call: Call, f: string) {
    call.Write? && call.read.fileObjectId == f && call.at < |states|
    && f in states[call.at].files && !states[call.at].files[f].deleted
  }

  lemma {:induction false} LastWriteStands(states: seq<Contents>, calls: seq<Call>, f: string, k: nat, j: nat)
    requires Calls(states, calls) && LastWrite(calls, f, k, j)
    ensures f in states[j].files && Some(states[j].files[f]) == Written(calls[k])
    decreases j
  {
    assert CallDone(states[..j], calls[j - 1], states[j]);
    if k + 1 < j {
      LastWriteStands(states, calls, f, k, j - 1);
    }
  }

  /** Going back from state `j` there is a last write, if there is any after call `i`. */
  lemma {:induction false} SomeWriteIsLast(calls: seq<Call>, f: string, i: nat, j: nat) returns (k: nat)
    requires i < j <= |calls| && Writes(calls[i], f)
    ensures i <= k && LastWrite(calls, f, k, j)
    decreases j
  {
    if Writes(calls[j - 1], f) {
      k := j - 1;
    } else {
      k := SomeWriteIsLast(calls, f, i, j - 1);
    }
  }

  /**
   A deleted file stays deleted exactly as long as nobody writes a stale record
   back: in any later state it is undeleted if and only if the last call since that
   wrote its record had read it while the file was undeleted.
   */
  lemma UndeletedIffStaleWrite(states: seq<Contents>, calls: seq<Call>, f: string, i: nat, j: nat)
    requires Calls(states, calls) && i < j < |states| && Deletes(calls[i], f)
    ensures f in states[j].files
    ensures !states[j].files[f].deleted <==>
              exists k: nat :: i < k < j && LastWrite(calls, f, k, j) && WroteUndeleted(states, calls[k], f)
  {
    var k := SomeWriteIsLast(calls, f, i, j);
    LastWriteStands(states, calls, f, k, j);
    assert CallDone(states[..k + 1], calls[k], states[k + 1]);
    assert CallDone(states[..i + 1], calls[i], states[i + 1]);
    FilesPersist(states, calls, i + 1, i + 1, f);
    if calls[k].Write? {
      assert states[..k + 1][calls[k].at] == states[calls[k].at];
    }
    forall l: nat | i < l < j && LastWrite(calls, f, l, j) ensures l == k {
    }
    CreatedOnce(states, calls, f, i, k);
  }

  /** A recorded file is not created again. */
  lemma CreatedOnce(states: seq<Contents>, calls: seq<Call>, f: string, i: nat, k: nat)
    requires Calls(states, calls) && i <= k < |calls| && Deletes(calls[i], f)
    ensures !(calls[k].Create? && calls[k].created.fileObjectId == f)
  {
    assert CallDone(states[..i + 1], calls[i], states[i + 1]);
    assert CallDone(states[..k + 1], calls[k], states[k + 1]);
    if i < k {
      FilesPersist(states, calls, i + 1, k, f);
    }
  }

  /** So it stays deleted if every later call that writes its record has read it since. */
  lemma {:induction false} FreshReadersLeaveItDeleted(states: seq<Contents>, calls: seq<Call>, f: string, i: nat, j: nat)
    requires Calls(states, calls) && i < j < |states| && Deletes(calls[i], f)
    requires forall k :: i < k < j && calls[k].Write? && calls[k].read.fileObjectId == f ==> calls[k].at > i
    ensures f in states[j].files && states[j].files[f].deleted
    decreases j
  {
    UndeletedIffStaleWrite(states, calls, f, i, j);
    forall k: nat | i < k < j && LastWrite(calls, f, k, j) ensures !WroteUndeleted(states, calls[k], f) {
      assert CallDone(states[..k + 1], calls[k], states[k + 1]);
      if calls[k].Write? && calls[k].read.fileObjectId == f {
        FreshReadersLeaveItDeleted(states, calls, f, i, calls[k].at);
      }
    }
  }

  /** A file that has been deleted once, and perhaps revived, is never deleted again: its content is gone. */
  lemma DeletedOnceOnly(states: seq<Contents>, calls: seq<Call>, f: string, i: nat, j: nat)
    requires Calls(states, calls) && i < j < |calls| && Deletes(calls[i], f)
    requires f in states[i].versions && states[i].versions[f] != []
    ensures !Deletes(calls[j], f)
  {
    assert CallDone(states[..i + 1], calls[i], states[i + 1]);
    assert states[i].versions[f][0] in states[i + 1].versions[f];
    assert PartlyDeleted(states[i + 1], f);
    PartialDeletionsNeverFinish(states, calls, f, i + 1, j);
  }

  // ----- Ann's file -----

  const ANNS_GRANTS := State(map[], map[FileRes("f") := "ann", BlobRes("b1") := "ann", BlobRes("b2") := "ann"], {"file_object", "blob"}, [])
  const ANNS_RECORD := FileRecord("f", "ann", "v2", false, "notes")
  const ANNS_VERSIONS := [VersionRecord("v1", "b1", "ann"), VersionRecord("v2", "b2", "ann")]
  const ANNS_FILE := Catalog(map["f" := ANNS_RECORD], map["f" := ANNS_VERSIONS], {"f"}, {"b1", "b2"})

  lemma AnnsFileInStep()
    ensures Consistent(ANNS_GRANTS, ANNS_FILE, {})
  {
    forall f, j | IsVersion(ANNS_FILE, f, j) ensures f == "f" && (j == 0 || j == 1) {
    }
  }

  /** Two versions, the first one's content erased: the file is in step, not deleted, and its owner may still write it. */
  lemma HalfDeletedFile()
    ensures Consistent(ANNS_GRANTS, ANNS_FILE, {}) && !ANNS_FILE.files["f"].deleted
    ensures Check(ANNS_GRANTS, "ann", ACTION_WRITE, FileRes("f")) == Ok(true)
    ensures PartlyDeleted(Contents(ANNS_FILE.files, ANNS_FILE.versions, {"b1"}), "f") && !AllGone(ANNS_VERSIONS, {"b1"})
  {
    AnnsFileInStep();
    assert ANNS_VERSIONS[0] in ANNS_VERSIONS && ANNS_VERSIONS[1] in ANNS_VERSIONS;
  }

  const BEFORE := Contents(ANNS_FILE.files, ANNS_FILE.versions, {})
  const DELETED := Contents(map["f" := ANNS_RECORD.(deleted := true)], ANNS_FILE.versions, {"b1", "b2"})
  const THIRD := VersionRecord("v3", "b3", "ann")
  const REVIVED := Contents(map["f" := ANNS_RECORD.(currentVersionRef := "v3")], map["f" := ANNS_VERSIONS + [THIRD]], {"b1", "b2"})

  /** A CreateVersion reads the record, the file is deleted, and then the CreateVersion takes the mutex. */
  lemma StaleVersionRevives()
    ensures var calls := [Delete(0, ANNS_RECORD, true), Write(0, ANNS_RECORD, ANNS_RECORD.(currentVersionRef := "v3"))];
            && Calls([BEFORE, DELETED, REVIVED], calls)
            && Deletes(calls[0], "f") && DELETED.files["f"].deleted && !REVIVED.files["f"].deleted
  {
    var states := [BEFORE, DELETED, REVIVED];
    var calls := [Delete(0, ANNS_RECORD, true), Write(0, ANNS_RECORD, ANNS_RECORD.(currentVersionRef := "v3"))];
    assert states[..1] == [BEFORE] && states[..2] == [BEFORE, DELETED];
    assert CallDone(states[..1], calls[0], states[1]);
    assert CallDone(states[..2], calls[1], states[2]);
  }
}
