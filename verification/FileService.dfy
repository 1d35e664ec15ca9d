/**
 The File Objects service.

 CreateVersion, SetFilePermissions and DeleteFileObject change the mirror under
 one mutex; each is one method here, given the record it read before it took the
 mutex.  The steps of CreateFileObject and GetFileContent, the write of
 SetFileMetadata and everything named Begin run outside the mutex, at any moment.
 A section writes its record once, at its end, and does not read it before, so a
 write from outside that falls into a section is as if it came before the section.

 `past` and `calls` are the states and the calls so far, and `at` the state in
 which the call read its record; each call says how it extends them (`CallDone`).

 `Valid` is the mirror property.  Every method keeps it whatever fails, and says
 exactly which subject of which file a failure can leave out of step.
 `perms.faulted` is cleared when a call begins, so afterwards it tells whether
 anything failed on the way.
 */
module FileService {
  import opened Wrappers
  import opened Permissions
  import opened PermissionEffects
  import opened FileObjects
  import opened FileHistory
  import PermissionRules

  class FileObjectsService {
    const perms: PermissionsClient
    const blobs: BlobStore
    var files: map<string, FileRecord>
    var versions: map<string, seq<VersionRecord>>
    ghost var fileIds: set<string>
    /** Pairs of file and subject that an unfinished call left out of step. */
    ghost var dirty: set<(string, string)>

    ghost function Cat(): Catalog
      reads this, blobs
    {
      Catalog(files, versions, fileIds, blobs.used)
    }

    ghost function Content(): Contents
      reads this, blobs
    {
      Contents(files, versions, blobs.deleted)
    }

    ghost predicate Valid()
      reads this, blobs, perms, perms.service.store
    {
      && blobs.perms == perms
      && Consistent(perms.View(), Cat(), dirty)
      && Keyed()
      && Backed(versions, blobs.stored)
    }

    ghost predicate Keyed()
      reads this
    {
      KeyedFiles(files)
    }

    constructor (perms: PermissionsClient, blobs: BlobStore)
      requires blobs.perms == perms && blobs.used == {}
      requires ResourcesKnown(perms.View(), Catalog(map[], map[], {}, {}))
      ensures Valid() && files == map[] && dirty == {} && this.perms == perms && this.blobs == blobs
    {
      this.perms, this.blobs := perms, blobs;
      files, versions, fileIds, dirty := map[], map[], {}, {};
    }

    ghost predicate EverRead(fo: FileRecord)
      reads this
    {
      fo.fileObjectId in files && fo.owner == files[fo.fileObjectId].owner
    }

    /** The record was read in state `at` of the calls that have led here. */
    ghost predicate Read(past: seq<Contents>, calls: seq<Call>, at: nat, fo: FileRecord)
      reads this, blobs
    {
      Calls(past, calls) && past[|past| - 1] == Content() && ReadAt(past, at, fo)
    }

    /** Ownership never changes, so a record read at any time names a file that is there, and its owner. */
    lemma ReadIsKnown(past: seq<Contents>, calls: seq<Call>, at: nat, fo: FileRecord)
      requires Read(past, calls, at, fo)
      ensures EverRead(fo)
    {
      FilesPersist(past, calls, at, |past| - 1, fo.fileObjectId);
    }

    /** What a call that needs write access does before it takes the mutex. */
    method BeginWrite(requester: string, f: string) returns (r: Result<FileRecord, FileError>)
      modifies perms
      ensures old(Valid()) ==> Valid()
      ensures r.Ok? ==> Check(perms.View(), requester, ACTION_WRITE, FileRes(f)) == Ok(true)
                        && f in files && r.value == files[f] && !r.value.deleted
      ensures r.Ok? && Keyed() ==> EverRead(r.value)
      ensures !perms.faulted && requester != "" && f != "" ==>
                (r.Ok? <==> Check(perms.View(), requester, ACTION_WRITE, FileRes(f)) == Ok(true) && f in files && !files[f].deleted)
    {
      perms.faulted := false;
      if f == "" || requester == "" {
        return Err(FileError.InvalidArgument);
      }
      var allowed := perms.CheckPermission(requester, ACTION_WRITE, FileRes(f));
      if allowed != Ok(true) {
        return Err(FileError.PermissionDenied);
      }
      r := FindFile(f);
      if r.Ok? && r.value.deleted {
        return Err(FileDeleted);
      }
    }

    /** The record as it is now; all that SetFilePermissions does before it takes the mutex. */
    method FindFile(f: string) returns (r: Result<FileRecord, FileError>)
      ensures r == if f in files then Ok(files[f]) else Err(FileNotFound)
    {
      if f !in files {
        return Err(FileNotFound);
      }
      return Ok(files[f]);
    }

    /** What SetFileMetadata does before it writes; it does not ask whether the file is deleted. */
    method BeginMetadata(requester: string, f: string) returns (r: Result<FileRecord, FileError>)
      modifies perms
      ensures old(Valid()) ==> Valid()
      ensures r.Ok? ==> Check(perms.View(), requester, ACTION_WRITE, FileRes(f)) == Ok(true) && f in files && r.value == files[f]
      ensures !perms.faulted && requester != "" && f != "" ==>
                (r.Ok? <==> Check(perms.View(), requester, ACTION_WRITE, FileRes(f)) == Ok(true) && f in files)
    {
      perms.faulted := false;
      if f == "" || requester == "" {
        return Err(FileError.InvalidArgument);
      }
      var allowed := perms.CheckPermission(requester, ACTION_WRITE, FileRes(f));
      if allowed != Ok(true) {
        return Err(FileError.PermissionDenied);
      }
      r := FindFile(f);
    }

    /** SetFileMetadata's audit event and write, without the mutex. */
    method SetFileMetadata(fo: FileRecord, name: Option<string>, ghost past: seq<Contents>, ghost calls: seq<Call>, ghost at: nat)
      returns (r: Result<(), FileError>)
      requires Valid() && Read(past, calls, at, fo)
      modifies this`files, perms
      ensures Valid()
      ensures files == if r.Ok? then old(files)[fo.fileObjectId := Renamed(fo, name)] else old(files)
      ensures !perms.faulted ==> r.Ok?
      ensures CallDone(past, if r.Ok? then Write(at, fo, Renamed(fo, name)) else Other, Content())
      ensures KeepsPending(old(perms.View()), old(Cat()), perms.View(), Cat(), {})
    {
      perms.faulted := false;
      ReadIsKnown(past, calls, at, fo);
      ghost var c := Cat();
      var audited := perms.Emit();
      if !audited {
        return Err(FileError.AuditFailed);
      }
      files := files[fo.fileObjectId := if name.Some? then fo.(name := name.value) else fo];
      SameOwners(perms.View(), c, Cat(), dirty);
      SectionKeepsPending(perms.View(), c, perms.View(), Cat(), {});
      return Ok(());
    }

    // ----- GetFileContent, step by step -----

    /** The first step: may the subject read the file? */
    method CheckRead(subject: string, f: string) returns (r: Result<(), FileError>)
      modifies perms
      ensures old(Valid()) ==> Valid()
      ensures r.Ok? ==> subject != "" && f != "" && Check(perms.View(), subject, ACTION_READ, FileRes(f)) == Ok(true)
      ensures !perms.faulted && subject != "" && f != "" ==>
                (r.Ok? <==> Check(perms.View(), subject, ACTION_READ, FileRes(f)) == Ok(true))
      ensures old(perms.faulted) ==> perms.faulted
    {
      if subject == "" || f == "" {
        return Err(FileError.InvalidArgument);
      }
      var allowed := perms.CheckPermission(subject, ACTION_READ, FileRes(f));
      if allowed.Err? {
        return Err(FileError.PermissionDenied);
      }
      if !allowed.value {
        var audited := perms.Emit();
        return Err(FileError.PermissionDenied);
      }
      return Ok(());
    }

    /** The second step: which version is asked for; none means the current one. */
    method FindContent(f: string, versionRef: string) returns (r: Result<VersionRecord, FileError>)
      requires files.Keys == versions.Keys
      ensures r.Ok? ==> f in files && exists j: nat ::
                IsNamed(versions[f], Wanted(files[f], versionRef), j) && versions[f][j] == r.value
      ensures r.Err? ==> r == if f in files then Err(VersionNotFound) else Err(FileNotFound)
      ensures r.Err? && f in files ==>
                forall j: nat :: !IsNamed(versions[f], Wanted(files[f], versionRef), j)
    {
      if f !in files {
        return Err(FileNotFound);
      }
      var v := FindVersion(f, if versionRef == "" then files[f].currentVersionRef else versionRef);
      if v.None? {
        return Err(VersionNotFound);
      }
      return Ok(v.value);
    }

    method FindVersion(f: string, versionRef: string) returns (v: Option<VersionRecord>)
      requires f in versions
      ensures v.Some? ==> exists j: nat :: IsNamed(versions[f], versionRef, j) && versions[f][j] == v.value
      ensures v.None? ==> forall j: nat :: !IsNamed(versions[f], versionRef, j)
    {
      var vs := versions[f];
      for j := 0 to |vs|
        invariant forall i :: 0 <= i < j ==> vs[i].versionRef != versionRef
      {
        if vs[j].versionRef == versionRef {
          assert IsNamed(vs, versionRef, j);
          return Some(vs[j]);
        }
      }
      return None;
    }

    /**
     The last step: Storage looks at the blob alone.  The content is named by its
     blob.  Whenever no section is changing the file and the pair is in step, that
     check amounts to the one on the file at this moment: whoever may read the file
     gets every version that is not erased.  What a change under way does to a
     retrieve is `ReadDuringChange`.
     */
    method Retrieve(subject: string, f: string, v: VersionRecord) returns (r: Result<string, FileError>)
      modifies blobs.perms
      ensures old(Valid()) ==> Valid()
      ensures r.Ok? ==> r.value == v.blobRef && Retrievable(blobs.perms.View(), subject, v.blobRef, blobs.stored, blobs.deleted)
      ensures !blobs.perms.faulted ==> (r.Ok? <==> Retrievable(blobs.perms.View(), subject, v.blobRef, blobs.stored, blobs.deleted))
      ensures Valid() && InStep(subject, f, v) && !perms.faulted ==>
                (r.Ok? <==> Check(perms.View(), subject, ACTION_READ, FileRes(f)) == Ok(true) && v.blobRef !in blobs.deleted)
      ensures old(blobs.perms.faulted) ==> blobs.perms.faulted
    {
      if Valid() && InStep(subject, f, v) {
        var j :| 0 <= j < |versions[f]| && versions[f][j] == v;
        assert IsVersion(Cat(), f, j);
        ReadersReachEveryVersion(perms.View(), Cat(), dirty, f, j, subject);
      }
      var data := blobs.RetrieveBlob(v.blobRef, subject);
      if !data {
        return Err(ContentUnavailable);
      }
      return Ok(v.blobRef);
    }

    ghost predicate InStep(subject: string, f: string, v: VersionRecord)
      reads this, perms, perms.service.store
    {
      && f in files && f in versions && v in versions[f] && (f, subject) !in dirty && subject != ""
      && "file_object" in perms.View().policies && "blob" in perms.View().policies
    }

    /** The steps with no change in between and nobody inside the mutex. */
    method GetFileContent(subject: string, f: string, versionRef: string) returns (r: Result<string, FileError>)
      requires Valid() && "file_object" in perms.View().policies && "blob" in perms.View().policies
      modifies perms
      ensures Valid()
      ensures r.Ok? ==> Check(perms.View(), subject, ACTION_READ, FileRes(f)) == Ok(true) && Readable(Content(), f, versionRef, r.value)
      ensures !perms.faulted && subject != "" && f != "" && (f, subject) !in dirty ==>
                (r.Ok? <==> Check(perms.View(), subject, ACTION_READ, FileRes(f)) == Ok(true) &&
                            exists blobRef :: Readable(Content(), f, versionRef, blobRef))
    {
      perms.faulted := false;
      var checked := CheckRead(subject, f);
      if checked.Err? {
        return Err(checked.error);
      }
      var found := FindContent(f, versionRef);
      if found.Err? {
        return Err(found.error);
      }
      r := Retrieve(subject, f, found.value);
      OnlyThisIsReadable(Content(), f, versionRef, found.value);
    }

    // ----- Mirroring -----

    /** Grants or revokes retrieve on each listed version's blob, on the file owner's behalf. */
    method MirrorToVersions(owner: string, subject: string, scope: string, grant: bool, vs: seq<VersionRecord>, now: int)
      returns (failed: seq<string>)
      requires GrantsHaveOwners(perms.View()) && owner != "" && subject != ""
      requires OwnedBlobs(perms.View(), owner, vs)
      modifies perms, perms.service.store
      ensures GrantsHaveOwners(perms.View()) && perms.View().owners == old(perms.View()).owners
      ensures OnlyTouches(old(perms.View()), perms.View(), RetrieveKeys(subject, vs))
      ensures failed == [] ==> MirroredUpTo(old(perms.View()), perms.View(), subject, vs, |vs|, if grant then Some(scope) else None)
      ensures MirroredBut(perms.View(), subject, vs, failed, if grant then Some(scope) else None)
      ensures failed != [] && (grant || HeldOnAll(old(perms.View()), subject, vs)) ==> perms.faulted
      ensures old(perms.faulted) ==> perms.faulted
    {
      ghost var p0 := perms.View();
      ghost var want := if grant then Some(scope) else None;
      failed := [];
      for i := 0 to |vs|
        invariant GrantsHaveOwners(perms.View()) && perms.View().owners == p0.owners
        invariant OnlyTouches(p0, perms.View(), RetrieveKeys(subject, vs[..i]))
        invariant failed == [] ==> MirroredUpTo(p0, perms.View(), subject, vs, i, want)
        invariant MirroredBut(perms.View(), subject, vs[..i], failed, want)
        invariant failed != [] && (grant || HeldOnAll(p0, subject, vs)) ==> perms.faulted
        invariant old(perms.faulted) ==> perms.faulted
      {
        ghost var p := perms.View();
        assert RetrieveKey(subject, vs[i].blobRef) !in RetrieveKeys(subject, vs[..i]);
        var ok := MirrorOne(owner, subject, scope, grant, vs[i].blobRef, now);
        MirrorExtends(p0, p, perms.View(), owner, subject, vs, i, want);
        ghost var before := failed;
        if !ok {
          failed := failed + [vs[i].versionRef];
        }
        MirroredButExtends(p, perms.View(), p0, owner, subject, vs, i, before, failed, want);
      }
      assert vs[..|vs|] == vs;
    }

    /** One blob of the loop: the owner's grant or revoke fails only with a failing call, or for want of a grant to revoke. */
    method MirrorOne(owner: string, subject: string, scope: string, grant: bool, blobRef: string, now: int) returns (ok: bool)
      requires GrantsHaveOwners(perms.View()) && owner != "" && subject != "" && blobRef != ""
      requires OwnedBy(perms.View(), BlobRes(blobRef), owner)
      modifies perms, perms.service.store
      ensures GrantsHaveOwners(perms.View()) && perms.View().owners == old(perms.View()).owners
      ensures OnlyTouches(old(perms.View()), perms.View(), {RetrieveKey(subject, blobRef)})
      ensures ok ==> ScopeHeld(perms.View(), RetrieveKey(subject, blobRef)) == if grant then Some(scope) else None
      ensures !ok && (grant || ScopeHeld(old(perms.View()), RetrieveKey(subject, blobRef)).Some?) ==> perms.faulted
      ensures old(perms.faulted) ==> perms.faulted
    {
      ghost var p := perms.View();
      if grant {
        ok := perms.Grant(owner, subject, RETRIEVE_BLOB, BlobRes(blobRef), scope, now);
        GrantEffect(p, GrantRequest(owner, subject, RETRIEVE_BLOB, BlobRes(blobRef), scope), now);
      } else {
        ok := perms.Revoke(owner, subject, RETRIEVE_BLOB, BlobRes(blobRef), now);
        RevokeEffect(p, RevokeRequest(owner, subject, RETRIEVE_BLOB, BlobRes(blobRef)), now);
      }
    }

    // ----- CreateFileObject, step by step, outside the mutex -----

    /** Everything of the files and their mirror is as before; only unused ids, grants on them and erased blobs may have come. */
    twostate predicate Untouched()
      reads this, blobs, perms, perms.service.store
    {
      files == old(files) && versions == old(versions) && dirty == old(dirty) && old(blobs.deleted) <= blobs.deleted
    }

    /** The first step stores version 1 and takes the ids. */
    method CreateStore(owner: string, requester: string, size: nat, fileId: string, blobRef: string, now: int)
      returns (r: Result<(), FileError>)
      requires Valid() && fileId != "" && blobRef != "" && fileId !in fileIds && blobRef !in blobs.used
      modifies this`fileIds, blobs, perms, perms.service.store
      ensures Valid() && Untouched()
      ensures r.Ok? ==> owner != "" && requester != "" && size > 0
                        && Pending(perms.View(), Cat(), owner, fileId, blobRef)
                        && blobRef in blobs.stored && BlobRes(blobRef) in perms.View().owners
      ensures r.Err? && owner != "" && requester != "" && size > 0 ==> perms.faulted
      ensures KeepsPending(old(perms.View()), old(Cat()), perms.View(), Cat(), {})
      ensures old(perms.faulted) ==> perms.faulted
    {
      if owner == "" || requester == "" || size == 0 {
        return Err(FileError.InvalidArgument);
      }
      var ok := TakeIds(owner, size, fileId, blobRef, now);
      var generated: bool := *;
      if !ok {
        return Err(StoreFailed);
      }
      if !generated {
        perms.faulted := true;
        var _ := blobs.DeleteBlob(blobRef, owner);
        return Err(StoreFailed);
      }
      return Ok(());
    }

    method TakeIds(owner: string, size: nat, fileId: string, blobRef: string, now: int) returns (ok: bool)
      requires Valid() && owner != "" && size > 0 && fileId != "" && blobRef != "" && fileId !in fileIds && blobRef !in blobs.used
      modifies this`fileIds, blobs`used, blobs`stored, perms, perms.service.store
      ensures Valid() && Untouched()
      ensures ok ==> Pending(perms.View(), Cat(), owner, fileId, blobRef)
                     && blobRef in blobs.stored && BlobRes(blobRef) in perms.View().owners
      ensures !ok ==> perms.faulted
      ensures KeepsPending(old(perms.View()), old(Cat()), perms.View(), Cat(), {})
      ensures old(perms.faulted) ==> perms.faulted
    {
      ghost var p0, c0 := perms.View(), Cat();
      ok := blobs.StoreBlob(owner, size, blobRef, now);
      fileIds := fileIds + {fileId};
      StoredForCreate(p0, perms.View(), c0, dirty, owner, fileId, blobRef);
    }

    /** One of the owner's three grants. */
    method CreateGrant(owner: string, fileId: string, blobRef: string, key: GrantKey, now: int) returns (ok: bool)
      requires Valid() && Pending(perms.View(), Cat(), owner, fileId, blobRef) && key in BootstrapKeys(owner, fileId, blobRef)
      modifies perms, perms.service.store
      ensures Valid() && Untouched() && Pending(perms.View(), Cat(), owner, fileId, blobRef)
      ensures forall r :: r in old(perms.View()).owners ==> r in perms.View().owners
      ensures ok ==> key.resource in perms.View().owners && ScopeHeld(perms.View(), key) == Some("full")
      ensures OnlyTouches(old(perms.View()), perms.View(), {key})
      ensures !ok ==> perms.faulted
      ensures KeepsPending(old(perms.View()), old(Cat()), perms.View(), Cat(), {FileRes(fileId), BlobRes(blobRef)})
      ensures old(perms.faulted) ==> perms.faulted
    {
      ghost var p := perms.View();
      GrantEffect(p, GrantRequest(owner, owner, key.action, key.resource, SCOPE_FULL), now);
      ok := perms.Grant(owner, owner, key.action, key.resource, SCOPE_FULL, now);
      BootstrapIsInvisible(p, perms.View(), Cat(), dirty, owner, fileId, blobRef);
      CreationKeepsPending(p, Cat(), perms.View(), Cat(), fileId, blobRef);
    }

    /** One revoke of the rollback; its error is ignored. */
    method CreateRevoke(owner: string, fileId: string, blobRef: string, key: GrantKey, now: int)
      requires Valid() && Pending(perms.View(), Cat(), owner, fileId, blobRef) && key in BootstrapKeys(owner, fileId, blobRef)
      modifies perms, perms.service.store
      ensures Valid() && Untouched() && Pending(perms.View(), Cat(), owner, fileId, blobRef)
      ensures KeepsPending(old(perms.View()), old(Cat()), perms.View(), Cat(), {FileRes(fileId), BlobRes(blobRef)})
      ensures OnlyTouches(old(perms.View()), perms.View(), {key}) && perms.View().owners == old(perms.View()).owners
      ensures !perms.faulted && key.resource in perms.View().owners ==> ScopeHeld(perms.View(), key) == None
      ensures old(perms.faulted) ==> perms.faulted
    {
      ghost var p := perms.View();
      RevokeEffect(p, RevokeRequest(owner, owner, key.action, key.resource), now);
      var _ := perms.Revoke(owner, owner, key.action, key.resource, now);
      BootstrapIsInvisible(p, perms.View(), Cat(), dirty, owner, fileId, blobRef);
      CreationKeepsPending(p, Cat(), perms.View(), Cat(), fileId, blobRef);
    }

    /** The last step: the audit event and the record. */
    method CreateRecord(fo: FileRecord, v: VersionRecord) returns (r: Result<string, FileError>)
      requires Valid() && Pending(perms.View(), Cat(), fo.owner, fo.fileObjectId, v.blobRef) && !fo.deleted
      requires FileRes(fo.fileObjectId) in perms.View().owners && BlobRes(v.blobRef) in perms.View().owners && v.blobRef in blobs.stored
      modifies this`files, this`versions, perms
      ensures Valid()
      ensures r.Ok? ==> r.value == fo.fileObjectId && Cat() == WithFile(old(Cat()), fo, v)
      ensures perms.View() == old(perms.View())
      ensures r.Err? ==> perms.faulted && Untouched() && Pending(perms.View(), Cat(), fo.owner, fo.fileObjectId, v.blobRef)
      ensures CallDone([old(Content())], if r.Ok? then Create(fo) else Other, Content())
      ensures KeepsPending(old(perms.View()), old(Cat()), perms.View(), Cat(), {FileRes(fo.fileObjectId), BlobRes(v.blobRef)})
      ensures old(perms.faulted) ==> perms.faulted
    {
      ghost var c := Cat();
      var audited := perms.Emit();
      if !audited {
        return Err(FileError.AuditFailed);
      }
      CreateEndsInStep(perms.View(), Cat(), dirty, fo, v);
      RecordFile(fo, v);
      RecordingKeepsPending(perms.View(), c, Cat(), fo, v);
      return Ok(fo.fileObjectId);
    }

    method RecordFile(fo: FileRecord, v: VersionRecord)
      requires fo.fileObjectId !in files && fo.fileObjectId !in versions && !fo.deleted
      requires Keyed() && Backed(versions, blobs.stored) && v.blobRef in blobs.stored
      modifies this`files, this`versions
      ensures Cat() == WithFile(old(Cat()), fo, v) && Keyed() && Backed(versions, blobs.stored)
      ensures CallDone([old(Content())], Create(fo), Content())
    {
      files := files[fo.fileObjectId := fo];
      versions := versions[fo.fileObjectId := [v]];
    }

    method EraseStored(owner: string, fileId: string, blobRef: string)
      requires Valid() && Pending(perms.View(), Cat(), owner, fileId, blobRef)
      requires blobRef in blobs.stored && BlobRes(blobRef) in perms.View().owners
      modifies blobs`deleted, perms
      ensures Valid() && Untouched() && perms.View() == old(perms.View())
      ensures !perms.faulted && "blob" in perms.View().policies ==> blobRef in blobs.deleted
      ensures old(perms.faulted) ==> perms.faulted
    {
      assert "blob" in perms.View().policies ==> Check(perms.View(), owner, "storage.delete_blob", BlobRes(blobRef)) == Ok(true);
      var _ := blobs.DeleteBlob(blobRef, owner);
    }

    /**
     Best-effort rollback: erases the blob and takes back the grants made so far.
     Afterwards `perms.faulted` tells whether the rollback itself met a failure.
     */
    method CreateUndo(owner: string, fileId: string, blobRef: string, granted: seq<GrantKey>, now: int)
      requires Valid() && Pending(perms.View(), Cat(), owner, fileId, blobRef)
      requires forall key :: key in granted ==> key in BootstrapKeys(owner, fileId, blobRef) && key.resource in perms.View().owners
      requires blobRef in blobs.stored && BlobRes(blobRef) in perms.View().owners
      modifies blobs`deleted, perms, perms.service.store
      ensures Valid() && Untouched()
      ensures !perms.faulted ==> forall key :: key in granted ==> ScopeHeld(perms.View(), key) == None
      ensures !perms.faulted && "blob" in old(perms.View()).policies ==> blobRef in blobs.deleted
    {
      perms.faulted := false;
      EraseStored(owner, fileId, blobRef);
      RevokeCreated(owner, fileId, blobRef, granted, now);
    }

    method RevokeCreated(owner: string, fileId: string, blobRef: string, granted: seq<GrantKey>, now: int)
      requires Valid() && Pending(perms.View(), Cat(), owner, fileId, blobRef)
      requires forall key :: key in granted ==> key in BootstrapKeys(owner, fileId, blobRef) && key.resource in perms.View().owners
      modifies perms, perms.service.store
      ensures Valid() && Untouched()
      ensures !perms.faulted ==> forall key :: key in granted ==> ScopeHeld(perms.View(), key) == None
      ensures old(perms.faulted) ==> perms.faulted
    {
      for i := 0 to |granted|
        invariant Valid() && Untouched() && Pending(perms.View(), Cat(), owner, fileId, blobRef)
        invariant perms.View().owners == old(perms.View()).owners
        invariant !perms.faulted ==> forall j :: 0 <= j < i ==> ScopeHeld(perms.View(), granted[j]) == None
        invariant old(perms.faulted) ==> perms.faulted
      {
        CreateRevoke(owner, fileId, blobRef, granted[i], now);
      }
    }

    /** The owner's grants in turn; the first that fails is followed by the rollback. */
    method CreateGrants(owner: string, fileId: string, blobRef: string, now: int) returns (ok: bool)
      requires Valid() && Pending(perms.View(), Cat(), owner, fileId, blobRef)
      requires blobRef in blobs.stored && BlobRes(blobRef) in perms.View().owners
      modifies blobs`deleted, perms, perms.service.store
      ensures Valid() && Untouched()
      ensures ok ==> Pending(perms.View(), Cat(), owner, fileId, blobRef)
                     && FileRes(fileId) in perms.View().owners && BlobRes(blobRef) in perms.View().owners
      ensures ok ==> HoldsAll(perms.View(), owner, fileId, blobRef)
      ensures !ok ==> perms.faulted
      ensures old(perms.faulted) ==> perms.faulted
    {
      var keys := OwnerKeys(owner, fileId, blobRef);
      for i := 0 to |keys|
        invariant Valid() && Untouched() && Pending(perms.View(), Cat(), owner, fileId, blobRef)
        invariant BlobRes(blobRef) in perms.View().owners
        invariant i > 0 ==> FileRes(fileId) in perms.View().owners
        invariant forall j :: 0 <= j < i ==> ScopeHeld(perms.View(), keys[j]) == Some("full")
        invariant old(perms.faulted) ==> perms.faulted
      {
        ok := CreateGrant(owner, fileId, blobRef, keys[i], now);
        if !ok {
          CreateUndo(owner, fileId, blobRef, keys[..i], now);
          perms.faulted := true;
          return false;
        }
      }
      HasAll(perms.View(), owner, fileId, blobRef);
      return true;
    }

    /**
     CreateFileObject, its steps one after the other: store version 1, make the owner
     the first grantor of the file and its blob, record the file.  A failure leaves
     nothing but unused ids behind.
     */
    method CreateFileObject(owner: string, requester: string, size: nat, name: string, fileId: string, versionRef: string,
                            blobRef: string, now: int)
      returns (r: Result<string, FileError>)
      requires Valid() && fileId != "" && blobRef != "" && fileId !in fileIds && blobRef !in blobs.used
      modifies this, blobs, perms, perms.service.store
      ensures Valid() && dirty == old(dirty)
      ensures r.Ok? ==> (r.value == fileId && fileId !in old(files)
                         && files == old(files)[fileId := FileRecord(fileId, owner, versionRef, false, name)]
                         && versions == old(versions)[fileId := [VersionRecord(versionRef, blobRef, requester)]])
      ensures r.Err? ==> files == old(files) && versions == old(versions)
      ensures owner != "" && requester != "" && size > 0 && !perms.faulted ==> r.Ok?
      ensures r.Ok? ==> HoldsAll(perms.View(), owner, fileId, blobRef)
      ensures r.Ok? ==> owner != "" && requester != "" && size > 0
      ensures CallDone([old(Content())], if r.Ok? then Create(FileRecord(fileId, owner, versionRef, false, name)) else Other, Content())
    {
      perms.faulted := false;
      var stored := CreateStore(owner, requester, size, fileId, blobRef, now);
      if stored.Err? {
        return Err(stored.error);
      }
      var granted := CreateGrants(owner, fileId, blobRef, now);
      if !granted {
        return Err(GrantFailed);
      }
      r := CreateRecord(FileRecord(fileId, owner, versionRef, false, name), VersionRecord(versionRef, blobRef, requester));
      if r.Err? {
        CreateUndo(owner, fileId, blobRef, OwnerKeys(owner, fileId, blobRef), now);
        perms.faulted := true;
      }
    }

    // ----- Changing a file, under the mutex -----

    /**
     CreateVersion under the mutex.  Whoever calls it, the new blob belongs to the
     file's owner, and every reader the mirroring did not miss can retrieve it.
     */
    method CreateVersion(fo: FileRecord, requester: string, size: nat, versionRef: string, blobRef: string, now: int,
                         ghost past: seq<Contents>, ghost calls: seq<Call>, ghost at: nat)
      returns (r: Result<string, FileError>)
      requires Valid() && Read(past, calls, at, fo) && blobRef != "" && blobRef !in blobs.used
      modifies this, blobs, perms, perms.service.store
      ensures Valid()
      ensures CallDone(past, if versions == old(versions) then Other else Write(at, fo, fo.(currentVersionRef := versionRef)), Content())
      ensures versions != old(versions) ==> !fo.deleted && requester != "" && size > 0
      ensures OnlyOn(old(perms.View()), perms.View(), {BlobRes(blobRef)})
      ensures KeepsPending(old(perms.View()), old(Cat()), perms.View(), Cat(), {})
      ensures files.Keys == old(files).Keys && fileIds == old(fileIds)
      ensures versions != old(versions) <==> RecordsVersion(r)
      ensures r.Ok? ==> dirty == old(dirty) && OwnedBy(perms.View(), BlobRes(blobRef), fo.owner)
      ensures r.Err? && r.error.MirrorIncomplete? ==> dirty == old(dirty) + (set s | s in r.error.missed :: (fo.fileObjectId, s))
      ensures versions != old(versions) ==>
                versions == old(versions)[fo.fileObjectId := VersionsOf(old(Content()), fo.fileObjectId) + [VersionRecord(versionRef, blobRef, requester)]]
      ensures old(dirty) <= dirty && (forall pair :: pair in dirty - old(dirty) ==> pair.0 == fo.fileObjectId)
      ensures dirty != old(dirty) ==> r.Err?
      ensures files == if versions == old(versions) then old(files)
                       else old(files)[fo.fileObjectId := fo.(currentVersionRef := versionRef)]
      ensures !perms.faulted ==> dirty == old(dirty) && (r.Ok? <==> requester != "" && size > 0 && !fo.deleted)
    {
      perms.faulted := false;
      if requester == "" || size == 0 {
        return Err(FileError.InvalidArgument);
      }
      if fo.deleted {
        return Err(FileDeleted);
      }
      ReadIsKnown(past, calls, at, fo);
      r := AddVersion(fo, VersionRecord(versionRef, blobRef, requester), size, now);
    }

    /** The section proper: the blob, its grants, the record, the audit event. */
    method AddVersion(fo: FileRecord, v: VersionRecord, size: nat, now: int) returns (r: Result<string, FileError>)
      requires Valid() && EverRead(fo) && size > 0 && v.blobRef != "" && v.blobRef !in blobs.used
      modifies this, blobs, perms, perms.service.store
      ensures Valid() && files.Keys == old(files).Keys && fileIds == old(fileIds) && Grows(old(Content()), Content())
      ensures r.Ok? ==> dirty == old(dirty) && OwnedBy(perms.View(), BlobRes(v.blobRef), fo.owner)
      ensures versions != old(versions) <==> RecordsVersion(r)
      ensures r.Err? && r.error.MirrorIncomplete? ==> dirty == old(dirty) + (set s | s in r.error.missed :: (fo.fileObjectId, s))
      ensures if versions == old(versions) then files == old(files) && dirty == old(dirty)
              else && versions == WithVersion(old(Cat()), fo.fileObjectId, v).versions
                   && files == old(files)[fo.fileObjectId := fo.(currentVersionRef := v.versionRef)]
      ensures old(dirty) <= dirty && (forall pair :: pair in dirty - old(dirty) ==> pair.0 == fo.fileObjectId)
      ensures !perms.faulted ==> dirty == old(dirty) && r.Ok?
      ensures OnlyOn(old(perms.View()), perms.View(), {BlobRes(v.blobRef)})
      ensures KeepsPending(old(perms.View()), old(Cat()), perms.View(), Cat(), {})
      ensures old(perms.faulted) ==> perms.faulted
    {
      ghost var p0, c0 := perms.View(), Cat();
      var missed := StoreAndMirror(fo.fileObjectId, fo.owner, size, v.blobRef, now);
      AddingKeepsPending(p0, perms.View(), c0, Cat(), fo.fileObjectId, v);
      if missed.Err? {
        return Err(missed.error);
      }
      var generated: bool := *;
      if !generated {
        perms.faulted := true;
        return Err(StoreFailed);
      }
      r := ConcludeVersion(fo, v, missed.value);
      AddingKeepsPending(p0, perms.View(), c0, Cat(), fo.fileObjectId, v);
    }

    /** The record, the audit event, the answer. */
    method ConcludeVersion(fo: FileRecord, v: VersionRecord, missed: seq<string>) returns (r: Result<string, FileError>)
      requires Consistent(perms.View(), Cat(), dirty) && EverRead(fo) && Keyed()
      requires NewBlob(perms.View(), Cat(), fo.fileObjectId, fo.owner, v.blobRef, missed)
      requires Backed(versions, blobs.stored) && v.blobRef in blobs.stored
      modifies this, perms
      ensures Consistent(perms.View(), Cat(), dirty) && Keyed() && Backed(versions, blobs.stored) && perms.View() == old(perms.View())
      ensures files.Keys == old(files).Keys && fileIds == old(fileIds) && RecordsVersion(r)
      ensures files == old(files)[fo.fileObjectId := fo.(currentVersionRef := v.versionRef)]
      ensures versions == WithVersion(old(Cat()), fo.fileObjectId, v).versions && versions != old(versions) && Grows(old(Content()), Content())
      ensures dirty == old(dirty) + (set s | s in missed :: (fo.fileObjectId, s))
      ensures r.Ok? ==> missed == []
      ensures r.Err? && r.error.MirrorIncomplete? ==> r.error.missed == missed
      ensures !perms.faulted && missed == [] ==> r.Ok?
      ensures old(perms.faulted) ==> perms.faulted
    {
      RecordVersion(fo, v, missed);
      var audited := perms.Emit();
      if !audited {
        return Err(FileError.AuditFailed);
      }
      if missed != [] {
        return Err(MirrorIncomplete(missed));
      }
      return Ok(v.versionRef);
    }

    /** The new version's blob, with its owner's grant and every reader's; not yet in any record. */
    method StoreAndMirror(f: string, owner: string, size: nat, blobRef: string, now: int) returns (r: Result<seq<string>, FileError>)
      requires blobs.perms == perms && Consistent(perms.View(), Cat(), dirty) && f in files && files[f].owner == owner
      requires size > 0 && blobRef != "" && blobRef !in blobs.used
      modifies blobs, perms, perms.service.store
      ensures Consistent(perms.View(), Cat(), dirty) && OnlyOn(old(perms.View()), perms.View(), {BlobRes(blobRef)})
      ensures blobs.used == old(blobs.used) + {blobRef}
      ensures old(blobs.stored) <= blobs.stored && old(blobs.deleted) <= blobs.deleted
      ensures r.Ok? ==> NewBlob(perms.View(), Cat(), f, owner, blobRef, r.value) && blobRef in blobs.stored
      ensures r.Err? ==> r.error in {StoreFailed, GrantFailed, ListingFailed}
      ensures !perms.faulted ==> r == Ok([])
      ensures old(perms.faulted) ==> perms.faulted
    {
      ghost var p0, c0 := perms.View(), Cat();
      var readers := StoreVersion(f, owner, size, blobRef, now);
      ghost var p1 := perms.View();
      FreshBlobFrame(p0, p1, c0, dirty, owner, blobRef);
      if readers.Err? {
        return Err(readers.error);
      }
      var missed := MirrorReaders(f, owner, blobRef, readers.value, now);
      NewBlobFrame(p1, perms.View(), Cat(), dirty, f, owner, blobRef, readers.value);
      return Ok(missed);
    }

    /** Appends the version and makes it current; the missed subjects become dirty. */
    method RecordVersion(fo: FileRecord, v: VersionRecord, missed: seq<string>)
      requires Consistent(perms.View(), Cat(), dirty) && EverRead(fo) && Keyed()
      requires NewBlob(perms.View(), Cat(), fo.fileObjectId, fo.owner, v.blobRef, missed)
      requires Backed(versions, blobs.stored) && v.blobRef in blobs.stored
      modifies this
      ensures Consistent(perms.View(), Cat(), dirty) && Keyed() && Backed(versions, blobs.stored)
      ensures files.Keys == old(files).Keys && fileIds == old(fileIds)
      ensures files == old(files)[fo.fileObjectId := fo.(currentVersionRef := v.versionRef)]
      ensures versions == WithVersion(old(Cat()), fo.fileObjectId, v).versions && versions != old(versions) && Grows(old(Content()), Content())
      ensures dirty == old(dirty) + (set s | s in missed :: (fo.fileObjectId, s))
    {
      var f := fo.fileObjectId;
      ghost var c := Cat();
      ghost var missedPairs := set s | s in missed :: (f, s);
      versions := versions[f := versions[f] + [v]];
      files := files[f := fo.(currentVersionRef := v.versionRef)];
      ConsistentAfterRecording(perms.View(), c, Cat(), dirty, missedPairs, fo, v, missed);
      VersionAdded(old(Content()), Content(), blobs.stored, f, v);
      dirty := dirty + missedPairs;
    }

    /** Stores the content, gives the owner the blob's first grant, and lists the file's grants. */
    method StoreVersion(f: string, owner: string, size: nat, blobRef: string, now: int)
      returns (r: Result<seq<Permissions.Grant>, FileError>)
      requires blobs.perms == perms && GrantsHaveOwners(perms.View())
      requires owner != "" && size > 0 && blobRef != "" && blobRef !in blobs.used && BlobRes(blobRef) !in perms.View().owners
      modifies blobs, perms, perms.service.store
      ensures blobs.used == old(blobs.used) + {blobRef} && old(blobs.stored) <= blobs.stored && old(blobs.deleted) <= blobs.deleted
      ensures Within(old(perms.View()), perms.View(), {RetrieveKey(owner, blobRef)}, {BlobRes(blobRef)})
      ensures r.Ok? ==> OwnedBy(perms.View(), BlobRes(blobRef), owner) && ListsFile(perms.View(), f, r.value) && blobRef in blobs.stored
      ensures r.Err? ==> perms.faulted && r.error in {StoreFailed, GrantFailed, ListingFailed}
      ensures old(perms.faulted) ==> perms.faulted
    {
      ghost var p0 := perms.View();
      var stored := blobs.StoreBlob(owner, size, blobRef, now);
      ghost var p1 := perms.View();
      if !stored {
        return Err(StoreFailed);
      }
      var granted := perms.Grant(owner, owner, RETRIEVE_BLOB, BlobRes(blobRef), SCOPE_FULL, now);
      WithinStep(p0, p1, perms.View(), {RetrieveKey(owner, blobRef)}, {BlobRes(blobRef)},
                 {RetrieveKey(owner, blobRef)}, {BlobRes(blobRef)});
      if !granted {
        var _ := blobs.DeleteBlob(blobRef, owner);
        return Err(GrantFailed);
      }
      var grants := perms.ListGrants(FileRes(f));
      if grants.None? {
        return Err(ListingFailed);
      }
      return Ok(grants.value);
    }

    /** Repeats each listed read grant of a non-owner on the new blob; `missed` names the subjects that failed. */
    method MirrorReaders(f: string, owner: string, blobRef: string, grants: seq<Permissions.Grant>, now: int)
      returns (missed: seq<string>)
      requires GrantsHaveOwners(perms.View()) && ListsFile(perms.View(), f, grants)
      requires owner != "" && blobRef != "" && OwnedBy(perms.View(), BlobRes(blobRef), owner)
      requires forall s :: s != owner ==> ScopeHeld(perms.View(), RetrieveKey(s, blobRef)) == None
      modifies perms, perms.service.store
      ensures GrantsHaveOwners(perms.View()) && perms.View().owners == old(perms.View()).owners
      ensures OnlyTouches(old(perms.View()), perms.View(), ReaderKeys(owner, blobRef, grants))
      ensures ReadersFollow(perms.View(), f, owner, blobRef, missed)
      ensures missed != [] ==> perms.faulted
      ensures old(perms.faulted) ==> perms.faulted
    {
      ghost var p1 := perms.View();
      missed := [];
      for i := 0 to |grants|
        invariant GrantsHaveOwners(perms.View()) && perms.View().owners == p1.owners
        invariant OnlyTouches(p1, perms.View(), ReaderKeys(owner, blobRef, grants[..i]))
        invariant CopiedSoFar(p1, perms.View(), f, owner, blobRef, grants, i, missed)
        invariant missed != [] ==> perms.faulted
        invariant old(perms.faulted) ==> perms.faulted
      {
        var g := grants[i];
        ghost var p, before := perms.View(), missed;
        if g.action == ACTION_READ && g.subject != owner {
          var ok := MirrorOne(owner, g.subject, g.scope, true, blobRef, now);
          if !ok {
            missed := missed + [g.subject];
          }
        }
        CopyingExtends(p1, p, perms.View(), f, owner, blobRef, grants, i, before, missed);
      }
      assert grants[..|grants|] == grants;
      ReadersAreListed(p1, f, owner, blobRef, grants);
    }

    /**
     DeleteFileObject under the mutex.  The content goes first; cleaning up the
     grants is best-effort, so only a failed call can leave readers out of step.
     Without failures it succeeds exactly when no version's content is gone already:
     a version that is gone makes every later deletion fail.
     */
    method DeleteFileObject(fo: FileRecord, requester: string, now: int,
                            ghost past: seq<Contents>, ghost calls: seq<Call>, ghost at: nat)
      returns (r: Result<(), FileError>)
      requires Valid() && Read(past, calls, at, fo)
      modifies this, blobs`deleted, perms, perms.service.store
      ensures Valid() && CallDone(past, Delete(at, fo, r.Ok?), Content())
      ensures OnlyOn(old(perms.View()), perms.View(), Resources(fo.fileObjectId, VersionsOf(old(Content()), fo.fileObjectId)))
      ensures KeepsPending(old(perms.View()), old(Cat()), perms.View(), Cat(), {})
      ensures files.Keys == old(files).Keys && versions == old(versions) && fileIds == old(fileIds)
      ensures files == if r.Ok? then old(files)[fo.fileObjectId := fo.(deleted := true)] else old(files)
      ensures !perms.faulted && "blob" in old(perms.View()).policies ==>
                (r.Ok? <==> requester != "" && !fo.deleted && !PartlyDeleted(old(Content()), fo.fileObjectId))
      ensures requester != "" && !fo.deleted && r.Err? ==>
                (r.error.ContentNotDeleted? || r.error.AuditFailed?)
                && GoneBut(VersionsOf(Content(), fo.fileObjectId), NotDeleted(r.error), blobs.deleted)
      ensures r.Ok? && !perms.faulted ==> (forall s, action ::
                ScopeHeld(perms.View(), GrantKey(s, action, FileRes(fo.fileObjectId))) == None)
      ensures old(dirty) <= dirty && (forall pair :: pair in dirty - old(dirty) ==> pair.0 == fo.fileObjectId)
      ensures dirty != old(dirty) ==> perms.faulted
    {
      perms.faulted := false;
      if requester == "" {
        return Err(FileError.InvalidArgument);
      }
      if fo.deleted {
        return Err(FileDeleted);
      }
      ReadIsKnown(past, calls, at, fo);
      ghost var p0, c0 := perms.View(), Cat();
      r := EraseFile(fo, now);
      FileKeepsPending(p0, perms.View(), c0, Cat(), fo.fileObjectId);
    }

    /** The section proper: content, grants, audit event, record. */
    method EraseFile(fo: FileRecord, now: int) returns (r: Result<(), FileError>)
      requires Valid() && EverRead(fo)
      modifies this, blobs`deleted, perms, perms.service.store
      ensures Valid() && Grows(old(Content()), Content())
      ensures versions == old(versions) && fileIds == old(fileIds)
      ensures files == if r.Ok? then old(files)[fo.fileObjectId := fo.(deleted := true)] else old(files)
      ensures r.Ok? ==> !PartlyDeleted(old(Content()), fo.fileObjectId) && AllGone(versions[fo.fileObjectId], blobs.deleted)
      ensures r.Err? ==> r == Err(FileError.AuditFailed) || r.error.ContentNotDeleted?
      ensures r.Err? ==> GoneBut(versions[fo.fileObjectId], NotDeleted(r.error), blobs.deleted)
      ensures !perms.faulted && "blob" in old(perms.View()).policies ==> (r.Ok? <==> !PartlyDeleted(old(Content()), fo.fileObjectId))
      ensures r.Ok? && !perms.faulted ==> NoGrantsOn(perms.View(), {FileRes(fo.fileObjectId)})
      ensures old(dirty) <= dirty && (forall pair :: pair in dirty - old(dirty) ==> pair.0 == fo.fileObjectId)
      ensures dirty != old(dirty) ==> perms.faulted
      ensures OnlyOn(old(perms.View()), perms.View(), Resources(fo.fileObjectId, versions[fo.fileObjectId]))
      ensures old(perms.faulted) ==> perms.faulted
    {
      var f := fo.fileObjectId;
      VersionsAreOwned(perms.View(), Cat(), dirty, f);
      var kept := DeleteContent(versions[f], fo.owner);
      WhenAllDeletable(perms.View(), fo.owner, old(Content()), f, blobs.stored);
      if kept != [] {
        return Err(ContentNotDeleted(kept));
      }
      r := DropRecord(fo, now);
    }

    /** Grants, audit event, record. */
    method DropRecord(fo: FileRecord, now: int) returns (r: Result<(), FileError>)
      requires Consistent(perms.View(), Cat(), dirty) && EverRead(fo) && Keyed()
      modifies this`files, this`dirty, perms, perms.service.store
      ensures Consistent(perms.View(), Cat(), dirty) && Keyed() && files.Keys == old(files).Keys
      ensures files == if r.Ok? then old(files)[fo.fileObjectId := fo.(deleted := true)] else old(files)
      ensures r.Err? ==> r == Err(FileError.AuditFailed)
      ensures !perms.faulted ==> r.Ok?
      ensures r.Ok? && !perms.faulted ==> NoGrantsOn(perms.View(), {FileRes(fo.fileObjectId)})
      ensures old(dirty) <= dirty && (forall pair :: pair in dirty - old(dirty) ==> pair.0 == fo.fileObjectId)
      ensures dirty != old(dirty) ==> perms.faulted
      ensures OnlyOn(old(perms.View()), perms.View(), Resources(fo.fileObjectId, versions[fo.fileObjectId]))
      ensures old(perms.faulted) ==> perms.faulted
    {
      DropGrants(fo.fileObjectId, fo.owner, now);
      var audited := perms.Emit();
      if !audited {
        return Err(FileError.AuditFailed);
      }
      MarkDeleted(fo);
      return Ok(());
    }

    method MarkDeleted(fo: FileRecord)
      requires Consistent(perms.View(), Cat(), dirty) && EverRead(fo) && Keyed()
      modifies this`files
      ensures Consistent(perms.View(), Cat(), dirty) && Keyed()
      ensures files == old(files)[fo.fileObjectId := fo.(deleted := true)] && files.Keys == old(files).Keys
    {
      ghost var c := Cat();
      files := files[fo.fileObjectId := fo.(deleted := true)];
      SameOwners(perms.View(), c, Cat(), dirty);
    }

    /** Clears the grants and notes what a failure left out of step. */
    method DropGrants(f: string, owner: string, now: int)
      requires Consistent(perms.View(), Cat(), dirty) && f in files && files[f].owner == owner
      modifies this`dirty, perms, perms.service.store
      ensures Consistent(perms.View(), Cat(), dirty) && OnlyOn(old(perms.View()), perms.View(), Resources(f, versions[f]))
      ensures old(dirty) <= dirty && (forall pair :: pair in dirty - old(dirty) ==> pair.0 == f)
      ensures dirty != old(dirty) ==> perms.faulted
      ensures !perms.faulted ==> NoGrantsOn(perms.View(), Resources(f, versions[f]))
      ensures old(perms.faulted) ==> perms.faulted
    {
      ghost var p0 := perms.View();
      VersionsAreOwned(p0, Cat(), dirty, f);
      ClearGrants(f, owner, versions[f], now);
      ghost var lost := if perms.faulted then set key | key in p0.active :: (f, key.subject) else {};
      ConsistentAfterClearing(p0, perms.View(), Cat(), dirty, lost, f);
      dirty := dirty + lost;
    }

    /** Deletes each listed version's blob; `kept` names the versions that were not deleted. */
    method DeleteContent(vs: seq<VersionRecord>, owner: string) returns (kept: seq<string>)
      requires blobs.perms == perms && forall i, j :: 0 <= i < j < |vs| ==> vs[i].blobRef != vs[j].blobRef
      modifies blobs`deleted, perms
      ensures old(blobs.deleted) <= blobs.deleted
      ensures kept == [] ==> AllDeletable(perms.View(), owner, vs, blobs.stored, old(blobs.deleted))
      ensures GoneBut(vs, kept, blobs.deleted)
      ensures !perms.faulted ==> (kept == [] <==> AllDeletable(perms.View(), owner, vs, blobs.stored, old(blobs.deleted)))
      ensures old(perms.faulted) ==> perms.faulted
    {
      kept := [];
      ghost var gone := blobs.deleted;
      for i := 0 to |vs|
        invariant gone <= blobs.deleted <= gone + set v | v in vs[..i] :: v.blobRef
        invariant kept == [] ==> AllDeletable(perms.View(), owner, vs[..i], blobs.stored, gone)
        invariant GoneBut(vs[..i], kept, blobs.deleted)
        invariant !perms.faulted ==> (kept == [] <==> AllDeletable(perms.View(), owner, vs[..i], blobs.stored, gone))
        invariant old(perms.faulted) ==> perms.faulted
      {
        assert vs[..i + 1] == vs[..i] + [vs[i]];
        assert vs[i].blobRef in blobs.deleted <==> vs[i].blobRef in gone;
        var deleted := blobs.DeleteBlob(vs[i].blobRef, owner);
        if !deleted {
          kept := kept + [vs[i].versionRef];
        }
      }
      assert vs[..|vs|] == vs;
    }

    /** Revokes every grant on the file and on every version's blob, ignoring errors. */
    method ClearGrants(f: string, owner: string, vs: seq<VersionRecord>, now: int)
      requires GrantsHaveOwners(perms.View()) && OwnedBlobs(perms.View(), owner, vs) && OwnedBy(perms.View(), FileRes(f), owner)
      requires owner != "" && f != ""
      modifies perms, perms.service.store
      ensures GrantsHaveOwners(perms.View()) && perms.View().owners == old(perms.View()).owners
      ensures OnlyTouches(old(perms.View()), perms.View(), GrantsOn(old(perms.View()), Resources(f, vs)))
      ensures !perms.faulted ==> NoGrantsOn(perms.View(), Resources(f, vs))
      ensures old(perms.faulted) ==> perms.faulted
    {
      ghost var p0 := perms.View();
      ClearResource(FileRes(f), owner, now);
      for i := 0 to |vs|
        invariant GrantsHaveOwners(perms.View()) && perms.View().owners == p0.owners
        invariant OnlyTouches(p0, perms.View(), GrantsOn(p0, Resources(f, vs[..i])))
        invariant !perms.faulted ==> NoGrantsOn(perms.View(), Resources(f, vs[..i]))
        invariant old(perms.faulted) ==> perms.faulted
      {
        ghost var p := perms.View();
        assert vs[..i + 1] == vs[..i] + [vs[i]];
        ClearResource(BlobRes(vs[i].blobRef), owner, now);
        ClearingComposes(p0, p, perms.View(), Resources(f, vs[..i]), BlobRes(vs[i].blobRef));
      }
      assert vs[..|vs|] == vs;
    }

    method ClearGrant(res: ResourceRef, owner: string, g: Permissions.Grant, now: int)
      requires GrantsHaveOwners(perms.View()) && OwnedBy(perms.View(), res, owner) && owner != "" && ValidResource(res)
      requires g.resource == res && g.subject != "" && g.action != ""
      modifies perms, perms.service.store
      ensures GrantsHaveOwners(perms.View()) && perms.View().owners == old(perms.View()).owners
      ensures OnlyTouches(old(perms.View()), perms.View(), {KeyOf(g)})
      ensures !perms.faulted ==> ScopeHeld(perms.View(), KeyOf(g)) == None
      ensures ScopeHeld(old(perms.View()), KeyOf(g)) == None ==> ScopeHeld(perms.View(), KeyOf(g)) == None
      ensures old(perms.faulted) ==> perms.faulted
    {
      RevokeEffect(perms.View(), RevokeRequest(owner, g.subject, g.action, res), now);
      var _ := perms.Revoke(owner, g.subject, g.action, res, now);
    }

    method ClearResource(res: ResourceRef, owner: string, now: int)
      requires GrantsHaveOwners(perms.View()) && OwnedBy(perms.View(), res, owner) && owner != "" && ValidResource(res)
      modifies perms, perms.service.store
      ensures GrantsHaveOwners(perms.View()) && perms.View().owners == old(perms.View()).owners
      ensures OnlyTouches(old(perms.View()), perms.View(), GrantsOn(old(perms.View()), {res}))
      ensures !perms.faulted ==> NoGrantsOn(perms.View(), {res})
      ensures old(perms.faulted) ==> perms.faulted
    {
      ghost var p0 := perms.View();
      var grants := perms.ListGrants(res);
      if grants.None? {
        return;
      }
      var gs := grants.value;
      for i := 0 to |gs|
        invariant GrantsHaveOwners(perms.View()) && perms.View().owners == p0.owners
        invariant OnlyTouches(p0, perms.View(), GrantsOn(p0, {res}))
        invariant !perms.faulted ==> forall j :: 0 <= j < i ==> ScopeHeld(perms.View(), KeyOf(gs[j])) == None
        invariant old(perms.faulted) ==> perms.faulted
      {
        ghost var p := perms.View();
        ClearGrant(res, owner, gs[i], now);
        TouchesCompose(p0, p, perms.View(), GrantsOn(p0, {res}), {KeyOf(gs[i])});
        assert GrantsOn(p0, {res}) + {KeyOf(gs[i])} == GrantsOn(p0, {res});
      }
      if !perms.faulted {
        AllRevoked(p0, perms.View(), res, gs);
      }
    }

    /**
     SetFilePermissions under the mutex.  A read change that succeeds brings its
     subject into step on every version, whatever failed before.
     */
    method SetFilePermissions(fo: FileRecord, requester: string, subject: string, action: string,
                              scope: string, grant: bool, now: int,
                              ghost past: seq<Contents>, ghost calls: seq<Call>, ghost at: nat)
      returns (r: Result<(), FileError>)
      requires Valid() && Read(past, calls, at, fo)
      modifies this, perms, perms.service.store
      ensures Valid() && CallDone(past, if WritesRecord(r) then Write(at, fo, fo) else Other, Content())
      ensures OnlyOn(old(perms.View()), perms.View(), Resources(fo.fileObjectId, VersionsOf(old(Content()), fo.fileObjectId)))
      ensures KeepsPending(old(perms.View()), old(Cat()), perms.View(), Cat(), {})
      ensures files.Keys == old(files).Keys && versions == old(versions) && fileIds == old(fileIds)
      ensures WritesRecord(r) ==> Authorized(old(perms.View()), requester, subject, action, fo.fileObjectId, scope, grant)
      ensures !perms.faulted ==>
                (WritesRecord(r) <==> requester != "" && subject != "" && (action == ACTION_READ || action == ACTION_WRITE)
                                      && Authorized(old(perms.View()), requester, subject, action, fo.fileObjectId, scope, grant))
      ensures !Authorized(old(perms.View()), requester, subject, action, fo.fileObjectId, scope, grant) ==>
                OnlyTouches(old(perms.View()), perms.View(), {})
      ensures var vs := VersionsOf(old(Content()), fo.fileObjectId);
              !perms.faulted && WritesRecord(r) && (grant || Mirrored(old(perms.View()), fo.fileObjectId, vs, subject)) ==> r.Ok?
      ensures Changed(perms.View(), fo.fileObjectId, VersionsOf(Content(), fo.fileObjectId), subject, action, if grant then Some(scope) else None, r)
      ensures r.Ok? && action == ACTION_READ ==>
                (fo.fileObjectId, subject) !in dirty &&
                Mirrored(perms.View(), fo.fileObjectId, versions[fo.fileObjectId], subject)
      ensures dirty - old(dirty) <= {(fo.fileObjectId, subject)}
      ensures dirty - old(dirty) != {} ==> r.Err? && perms.faulted
      ensures files == if WritesRecord(r) then old(files)[fo.fileObjectId := fo] else old(files)
    {
      perms.faulted := false;
      if requester == "" || subject == "" {
        return Err(FileError.InvalidArgument);
      }
      if action != ACTION_READ && action != ACTION_WRITE {
        return Err(InvalidPermissionAction);
      }
      ReadIsKnown(past, calls, at, fo);
      ghost var p0, c0 := perms.View(), Cat();
      r := ChangeInStep(fo, requester, subject, action, scope, grant, now);
      FileKeepsPending(p0, perms.View(), c0, Cat(), fo.fileObjectId);
    }

    /** The section proper, with what it leaves out of step. */
    method ChangeInStep(fo: FileRecord, requester: string, subject: string, action: string,
                        scope: string, grant: bool, now: int)
      returns (r: Result<(), FileError>)
      requires Valid() && EverRead(fo) && requester != "" && subject != "" && action in {ACTION_READ, ACTION_WRITE}
      modifies this, perms, perms.service.store
      ensures Valid() && versions == old(versions) && fileIds == old(fileIds)
      ensures Decided(old(perms.View()), perms.View(), Authorized(old(perms.View()), requester, subject, action, fo.fileObjectId, scope, grant),
                      WritesRecord(r), perms.faulted)
      ensures !perms.faulted && WritesRecord(r) && (grant || Mirrored(old(perms.View()), fo.fileObjectId, old(versions)[fo.fileObjectId], subject)) ==> r.Ok?
      ensures Changed(perms.View(), fo.fileObjectId, versions[fo.fileObjectId], subject, action, if grant then Some(scope) else None, r)
      ensures r.Ok? && action == ACTION_READ ==>
                (fo.fileObjectId, subject) !in dirty &&
                Mirrored(perms.View(), fo.fileObjectId, versions[fo.fileObjectId], subject)
      ensures dirty - old(dirty) <= {(fo.fileObjectId, subject)}
      ensures dirty - old(dirty) != {} ==> r.Err? && perms.faulted
      ensures files == if WritesRecord(r) then old(files)[fo.fileObjectId := fo] else old(files)
      ensures files.Keys == old(files).Keys
      ensures OnlyOn(old(perms.View()), perms.View(), Resources(fo.fileObjectId, versions[fo.fileObjectId]))
    {
      r := ChangeAndMirror(fo, requester, subject, action, scope, grant, now);
      NoteStep(fo, subject);
    }

    /** Remembers whether the subject is in step on the file. */
    method NoteStep(fo: FileRecord, subject: string)
      requires EverRead(fo) && Keyed() && blobs.perms == perms && Backed(versions, blobs.stored)
      requires Consistent(perms.View(), Cat(), dirty + {(fo.fileObjectId, subject)})
      modifies this`dirty
      ensures Valid() && dirty - old(dirty) <= {(fo.fileObjectId, subject)}
      ensures (fo.fileObjectId, subject) in dirty <==>
                subject != fo.owner && !Mirrored(perms.View(), fo.fileObjectId, versions[fo.fileObjectId], subject)
    {
      var f := fo.fileObjectId;
      if subject == fo.owner || Mirrored(perms.View(), f, versions[f], subject) {
        Settled(perms.View(), Cat(), dirty, f, subject);
        dirty := dirty - {(f, subject)};
      } else {
        dirty := dirty + {(f, subject)};
      }
    }

    method ChangeAndMirror(fo: FileRecord, requester: string, subject: string, action: string,
                           scope: string, grant: bool, now: int)
      returns (r: Result<(), FileError>)
      requires Valid() && EverRead(fo) && requester != "" && subject != "" && action in {ACTION_READ, ACTION_WRITE}
      modifies this`files, perms, perms.service.store
      ensures files.Keys == old(files).Keys && EverRead(fo) && Keyed()
      ensures Consistent(perms.View(), Cat(), dirty + {(fo.fileObjectId, subject)})
      ensures Decided(old(perms.View()), perms.View(), Authorized(old(perms.View()), requester, subject, action, fo.fileObjectId, scope, grant),
                      WritesRecord(r), perms.faulted)
      ensures !perms.faulted && WritesRecord(r) && (grant || Mirrored(old(perms.View()), fo.fileObjectId, old(versions)[fo.fileObjectId], subject)) ==> r.Ok?
      ensures Changed(perms.View(), fo.fileObjectId, versions[fo.fileObjectId], subject, action, if grant then Some(scope) else None, r)
      ensures r.Ok? && action == ACTION_READ ==>
                Mirrored(perms.View(), fo.fileObjectId, versions[fo.fileObjectId], subject)
      ensures (fo.fileObjectId, subject) !in dirty && subject != fo.owner && (!perms.faulted || r.Ok?) ==>
                Mirrored(perms.View(), fo.fileObjectId, versions[fo.fileObjectId], subject)
      ensures files == if WritesRecord(r) then old(files)[fo.fileObjectId := fo] else old(files)
      ensures OnlyOn(old(perms.View()), perms.View(), Resources(fo.fileObjectId, versions[fo.fileObjectId]))
      ensures old(perms.faulted) ==> perms.faulted
    {
      var f := fo.fileObjectId;
      ghost var p0, c0 := perms.View(), Cat();
      VersionsAreOwned(p0, c0, dirty, f);
      r := ChangeAndRecord(fo, requester, subject, action, scope, grant, now);
      ConsistentAfterChange(p0, perms.View(), c0, Cat(), dirty, f, subject, ChangedKeys(f, versions[f], subject, action));
      ChangeStaysOnFile(p0, perms.View(), f, versions[f], subject, action);
    }

    method ChangeAndRecord(fo: FileRecord, requester: string, subject: string, action: string,
                           scope: string, grant: bool, now: int)
      returns (r: Result<(), FileError>)
      requires EverRead(fo) && Keyed() && requester != "" && subject != "" && action in {ACTION_READ, ACTION_WRITE}
      requires fo.fileObjectId in versions && GrantsHaveOwners(perms.View())
      requires OwnedBlobs(perms.View(), fo.owner, versions[fo.fileObjectId])
      requires FileRes(fo.fileObjectId) in perms.View().owners && fo.fileObjectId != "" && fo.owner != ""
      modifies this`files, perms, perms.service.store
      ensures files.Keys == old(files).Keys && EverRead(fo) && Keyed()
      ensures forall f :: f in files ==> files[f].owner == old(files)[f].owner
      ensures files == if WritesRecord(r) then old(files)[fo.fileObjectId := fo] else old(files)
      ensures GrantsHaveOwners(perms.View()) && perms.View().owners == old(perms.View()).owners
      ensures OnlyTouches(old(perms.View()), perms.View(), ChangedKeys(fo.fileObjectId, versions[fo.fileObjectId], subject, action))
      ensures Decided(old(perms.View()), perms.View(), Authorized(old(perms.View()), requester, subject, action, fo.fileObjectId, scope, grant),
                      WritesRecord(r), perms.faulted)
      ensures !perms.faulted && WritesRecord(r) && (grant || Mirrored(old(perms.View()), fo.fileObjectId, versions[fo.fileObjectId], subject)) ==> r.Ok?
      ensures Changed(perms.View(), fo.fileObjectId, versions[fo.fileObjectId], subject, action, if grant then Some(scope) else None, r)
      ensures r.Ok? && action == ACTION_READ ==> Mirrored(perms.View(), fo.fileObjectId, versions[fo.fileObjectId], subject)
      ensures Mirrored(old(perms.View()), fo.fileObjectId, versions[fo.fileObjectId], subject) && (!perms.faulted || r.Ok?) ==>
                Mirrored(perms.View(), fo.fileObjectId, versions[fo.fileObjectId], subject)
      ensures old(perms.faulted) ==> perms.faulted
    {
      var f := fo.fileObjectId;
      var changed, failed := ChangeGrants(f, versions[f], fo.owner, requester, subject, action, scope, grant, now);
      if !changed {
        return Err(if grant then GrantFailed else RevokeFailed);
      }
      r := RecordChange(fo, failed);
    }

    /** The audit event and the record of a permission change. */
    method RecordChange(fo: FileRecord, failed: seq<string>) returns (r: Result<(), FileError>)
      requires EverRead(fo) && Keyed()
      modifies this`files, perms
      ensures files.Keys == old(files).Keys && EverRead(fo) && Keyed() && perms.View() == old(perms.View())
      ensures forall f :: f in files ==> files[f].owner == old(files)[f].owner
      ensures files == if WritesRecord(r) then old(files)[fo.fileObjectId := fo] else old(files)
      ensures r.Ok? ==> failed == []
      ensures r.Err? ==> r == Err(FileError.AuditFailed) || (r == Err(MirrorIncomplete(failed)) && failed != [])
      ensures !perms.faulted ==> r == if failed == [] then Ok(()) else Err(MirrorIncomplete(failed))
      ensures old(perms.faulted) ==> perms.faulted
    {
      var audited := perms.Emit();
      if !audited {
        return Err(FileError.AuditFailed);
      }
      files := files[fo.fileObjectId := fo];
      if failed != [] {
        return Err(MirrorIncomplete(failed));
      }
      return Ok(());
    }

    /** Changes the file's grant and, for read, every version's; `failed` names the versions that were missed. */
    method ChangeGrants(f: string, vs: seq<VersionRecord>, owner: string, requester: string, subject: string,
                        action: string, scope: string, grant: bool, now: int)
      returns (changed: bool, failed: seq<string>)
      requires GrantsHaveOwners(perms.View()) && OwnedBlobs(perms.View(), owner, vs) && FileRes(f) in perms.View().owners
      requires f != "" && owner != "" && requester != "" && subject != "" && action in {ACTION_READ, ACTION_WRITE}
      modifies perms, perms.service.store
      ensures GrantsHaveOwners(perms.View()) && perms.View().owners == old(perms.View()).owners
      ensures OnlyTouches(old(perms.View()), perms.View(), ChangedKeys(f, vs, subject, action))
      ensures Decided(old(perms.View()), perms.View(), Authorized(old(perms.View()), requester, subject, action, f, scope, grant),
                      changed, perms.faulted)
      ensures changed && !perms.faulted && (grant || Mirrored(old(perms.View()), f, vs, subject)) ==> failed == []
      ensures changed ==> ScopeHeld(perms.View(), GrantKey(subject, action, FileRes(f))) == if grant then Some(scope) else None
      ensures changed && failed == [] && action == ACTION_READ ==> Mirrored(perms.View(), f, vs, subject)
      ensures failed != [] ==> action == ACTION_READ
      ensures changed && action == ACTION_READ ==> MirroredBut(perms.View(), subject, vs, failed, if grant then Some(scope) else None)
      ensures Mirrored(old(perms.View()), f, vs, subject) && (!perms.faulted || (changed && failed == [])) ==>
                Mirrored(perms.View(), f, vs, subject)
      ensures old(perms.faulted) ==> perms.faulted
    {
      ghost var p0 := perms.View();
      changed := ChangeFileGrant(f, requester, subject, action, scope, grant, now);
      ghost var p1 := perms.View();
      failed := [];
      ghost var own := {GrantKey(subject, action, FileRes(f))};
      if changed && action == ACTION_READ {
        failed := MirrorToVersions(owner, subject, scope, grant, vs, now);
        TouchesCompose(p0, p1, perms.View(), own, RetrieveKeys(subject, vs));
        ghost var want := if grant then Some(scope) else None;
        assert failed == [] ==> MirroredUpTo(p1, perms.View(), subject, vs, |vs|, want);
        MirrorOutcome(p0, p1, perms.View(), f, vs, subject, want, failed == []);
      } else if Mirrored(p0, f, vs, subject) {
        if action == ACTION_WRITE {
          MirroredUntouched(p0, p1, f, vs, subject, own);
        } else if !perms.faulted {
          MirroredUntouched(p0, p1, f, vs, subject, {});
        }
      }
    }

    /** The grant or revoke on the file itself, decided by Permissions alone. */
    method ChangeFileGrant(f: string, requester: string, subject: string, action: string, scope: string, grant: bool, now: int)
      returns (changed: bool)
      requires GrantsHaveOwners(perms.View()) && FileRes(f) in perms.View().owners
      requires f != "" && requester != "" && subject != "" && action != ""
      modifies perms, perms.service.store
      ensures GrantsHaveOwners(perms.View()) && perms.View().owners == old(perms.View()).owners
      ensures OnlyTouches(old(perms.View()), perms.View(), {GrantKey(subject, action, FileRes(f))})
      ensures !changed && !perms.faulted ==> OnlyTouches(old(perms.View()), perms.View(), {})
      ensures Decided(old(perms.View()), perms.View(), Authorized(old(perms.View()), requester, subject, action, f, scope, grant),
                      changed, perms.faulted)
      ensures changed ==> ScopeHeld(perms.View(), GrantKey(subject, action, FileRes(f))) == if grant then Some(scope) else None
      ensures changed && !grant ==> ScopeHeld(old(perms.View()), GrantKey(subject, action, FileRes(f))).Some?
      ensures old(perms.faulted) ==> perms.faulted
    {
      ghost var p0 := perms.View();
      if grant {
        GrantEffect(p0, GrantRequest(requester, subject, action, FileRes(f), scope), now);
        changed := perms.Grant(requester, subject, action, FileRes(f), scope, now);
      } else {
        RevokeEffect(p0, RevokeRequest(requester, subject, action, FileRes(f)), now);
        changed := perms.Revoke(requester, subject, action, FileRes(f), now);
      }
    }
  }

  function OwnerKeys(owner: string, fileId: string, blobRef: string): seq<GrantKey> {
    [ReadKey(owner, fileId), GrantKey(owner, ACTION_WRITE, FileRes(fileId)), RetrieveKey(owner, blobRef)]
  }

  /** The owner of a new file holds read and write on it, and retrieve on its blob. */
  predicate HoldsAll(p: State, owner: string, fileId: string, blobRef: string) {
    && ScopeHeld(p, GrantKey(owner, "fileobjects.read", ResourceRef("file_object", fileId))) == Some("full")
    && ScopeHeld(p, GrantKey(owner, "fileobjects.write", ResourceRef("file_object", fileId))) == Some("full")
    && ScopeHeld(p, GrantKey(owner, "storage.retrieve_blob", ResourceRef("blob", blobRef))) == Some("full")
  }

  lemma HasAll(p: State, owner: string, fileId: string, blobRef: string)
    requires forall j :: 0 <= j < 3 ==> ScopeHeld(p, OwnerKeys(owner, fileId, blobRef)[j]) == Some("full")
    ensures HoldsAll(p, owner, fileId, blobRef)
  {
    assert OwnerKeys(owner, fileId, blobRef)[0] == ReadKey(owner, fileId);
    assert OwnerKeys(owner, fileId, blobRef)[1] == GrantKey(owner, ACTION_WRITE, FileRes(fileId));
    assert OwnerKeys(owner, fileId, blobRef)[2] == RetrieveKey(owner, blobRef);
  }

  /** Permissions lets the requester, and not somebody in its name, make this change. */
  ghost predicate Authorized(p: State, requester: string, subject: string, action: string, f: string, scope: string, grant: bool) {
    if grant then AuthorizeGrant(p, GrantRequest(requester, subject, action, FileRes(f), scope)).Allowed?
    else RevokeOutcome(p, RevokeRequest(requester, subject, action, FileRes(f))).Allowed?
  }

  /** A change is made only if authorized, and if no call failed exactly then; unauthorized it touches nothing. */
  ghost predicate Decided(p: State, p': State, authorized: bool, changed: bool, faulted: bool) {
    (changed ==> authorized) && (!faulted && authorized ==> changed) && (!authorized ==> OnlyTouches(p, p', {}))
  }

  /** Who does not own the file and holds nothing on it can grant nobody anything on it. */
  lemma OutsidersCannotGrant(p: State, c: Catalog, dirty: set<(string, string)>, outsider: string, subject: string,
                             action: string, f: string, scope: string)
    requires Consistent(p, c, dirty) && f in c.files && outsider != c.files[f].owner
    requires forall key :: key in p.active && key.resource == FileRes(f) ==> key.subject != outsider
    ensures !Authorized(p, outsider, subject, action, f, scope, true)
    ensures outsider != subject && !(exists key :: key in p.active && key.resource == FileRes(f) && p.active[key].grantor == outsider) ==>
              !Authorized(p, outsider, subject, action, f, scope, false)
  {
    PermissionRules.AuthorityByOrder(p, GrantRequest(outsider, subject, action, FileRes(f), scope));
  }

  /** The versions that the error names; every other error comes after all content is gone. */
  function NotDeleted(error: FileError): seq<string> {
    if error.ContentNotDeleted? then error.versions else []
  }

  /**
   What the answer says about the change: once it is made the file's grant is as
   wanted, whether or not the audit event followed, and if versions are named as
   missed, the others are mirrored.
   */
  predicate Changed(p: State, f: string, vs: seq<VersionRecord>, subject: string, action: string, want: Option<string>,
                    r: Result<(), FileError>) {
    && (r.Ok? || r.error.AuditFailed? || r.error.MirrorIncomplete? ==> ScopeHeld(p, GrantKey(subject, action, FileRes(f))) == want)
    && (r.Err? && r.error.MirrorIncomplete? ==>
          r.error.missed != [] && action == ACTION_READ && MirroredBut(p, subject, vs, r.error.missed, want))
  }

  /** Of the listed versions all but those named have the subject's retrieve grant as wanted. */
  predicate MirroredBut(p: State, subject: string, vs: seq<VersionRecord>, missed: seq<string>, want: Option<string>) {
    forall v :: v in vs && v.versionRef !in missed ==> ScopeHeld(p, RetrieveKey(subject, v.blobRef)) == want
  }

  lemma MirroredButExtends(p: State, p': State, p0: State, owner: string, subject: string, vs: seq<VersionRecord>, i: nat,
                           missed: seq<string>, missed': seq<string>, want: Option<string>)
    requires i < |vs| && OwnedBlobs(p0, owner, vs) && OnlyTouches(p, p', {RetrieveKey(subject, vs[i].blobRef)})
    requires MirroredBut(p, subject, vs[..i], missed, want)
    requires missed' == missed + [vs[i].versionRef] || (missed' == missed && ScopeHeld(p', RetrieveKey(subject, vs[i].blobRef)) == want)
    ensures MirroredBut(p', subject, vs[..i + 1], missed', want)
  {
    assert vs[..i + 1] == vs[..i] + [vs[i]];
    forall v | v in vs[..i + 1] && v.versionRef !in missed' ensures ScopeHeld(p', RetrieveKey(subject, v.blobRef)) == want {
      assert v.versionRef !in missed;
      if v in vs[..i] {
        assert v.blobRef != vs[i].blobRef;
      }
    }
  }

  /** Of the listed versions all but those named are erased. */
  predicate GoneBut(vs: seq<VersionRecord>, kept: seq<string>, deleted: set<string>) {
    forall v :: v in vs && v.versionRef !in kept ==> v.blobRef in deleted
  }

  /** CreateVersion records its version before the audit event, and also when some readers were missed. */
  predicate RecordsVersion(r: Result<string, FileError>) {
    r.Ok? || r.error.AuditFailed? || r.error.MirrorIncomplete?
  }

  function Renamed(fo: FileRecord, name: Option<string>): FileRecord {
    if name.Some? then fo.(name := name.value) else fo
  }

  /** SetFilePermissions writes the record once the change is made and audited, also when some versions were missed. */
  predicate WritesRecord(r: Result<(), FileError>) {
    r.Ok? || r.error.MirrorIncomplete?
  }

  /** Blobs are erased, and one version may be added to a file. */
  lemma VersionAdded(c: Contents, c': Contents, stored: set<string>, f: string, v: VersionRecord)
    requires f in c.versions && c'.versions == c.versions[f := c.versions[f] + [v]] && c.deleted <= c'.deleted
    requires Backed(c.versions, stored) && v.blobRef in stored
    ensures Backed(c'.versions, stored) && Grows(c, c')
  {
  }

  /** A section on a recorded file leaves every creation under way. */
  lemma FileKeepsPending(p: State, p': State, c: Catalog, c': Catalog, f: string)
    requires CatalogValid(c) && f in c.files && OnlyOn(p, p', Resources(f, c.versions[f]))
    requires c'.files.Keys == c.files.Keys && c'.versions == c.versions && c'.fileIds == c.fileIds && c'.blobs == c.blobs
    ensures KeepsPending(p, c, p', c', {})
  {
    forall r | r in Resources(f, c.versions[f]) ensures Unreserved(c, r) {
      if r != FileRes(f) {
        var v :| v in c.versions[f] && r == BlobRes(v.blobRef);
        var j :| 0 <= j < |c.versions[f]| && c.versions[f][j] == v;
        assert IsVersion(c, f, j);
      }
    }
    SectionKeepsPending(p, c, p', c', Resources(f, c.versions[f]));
  }

  lemma ChangeStaysOnFile(p: State, p': State, f: string, vs: seq<VersionRecord>, subject: string, action: string)
    requires OnlyTouches(p, p', ChangedKeys(f, vs, subject, action)) && p'.owners == p.owners
    ensures OnlyOn(p, p', Resources(f, vs))
  {
  }

  /** So does a section that works on a new blob, whether it records a version or not. */
  lemma AddingKeepsPending(p: State, p': State, c: Catalog, c': Catalog, f: string, v: VersionRecord)
    requires OnlyOn(p, p', {BlobRes(v.blobRef)}) && v.blobRef !in c.blobs && f in c.versions
    requires c'.files.Keys == c.files.Keys && c'.fileIds == c.fileIds && c'.blobs == c.blobs + {v.blobRef}
    requires c'.versions == c.versions || c'.versions == WithVersion(c, f, v).versions
    ensures KeepsPending(p, c, p', c', {})
  {
    forall g, j | IsVersion(c', g, j)
      ensures c'.versions[g][j].blobRef !in c.blobs || (IsVersion(c, g, j) && c'.versions[g][j] == c.versions[g][j])
    {
      assert c'.versions != c.versions && g == f && j == |c.versions[f]| ==> c'.versions[g][j] == v;
    }
    SectionKeepsPending(p, c, p', c', {BlobRes(v.blobRef)});
  }

  /** Recording a file ends its creation and no other. */
  lemma RecordingKeepsPending(p: State, c: Catalog, c': Catalog, fo: FileRecord, v: VersionRecord)
    requires c' == WithFile(c, fo, v)
    ensures KeepsPending(p, c, p, c', {FileRes(fo.fileObjectId), BlobRes(v.blobRef)})
  {
    forall g, j | IsVersion(c', g, j)
      ensures c'.versions[g][j].blobRef == v.blobRef || (IsVersion(c, g, j) && c'.versions[g][j] == c.versions[g][j])
    {
    }
    CreationKeepsPending(p, c, p, c', fo.fileObjectId, v.blobRef);
  }

  /** The owner's grant on the first blob, and the two ids, are a creation under way. */
  lemma StoredForCreate(p: State, p': State, c: Catalog, dirty: set<(string, string)>, owner: string, fileId: string, blobRef: string)
    requires Consistent(p, c, dirty) && fileId !in c.fileIds && blobRef !in c.blobs && blobRef != "" && fileId != "" && owner != ""
    requires Within(p, p', {RetrieveKey(owner, blobRef)}, {BlobRes(blobRef)})
    ensures var c1 := c.(fileIds := c.fileIds + {fileId}, blobs := c.blobs + {blobRef});
            && Consistent(p', c1, dirty) && KeepsPending(p, c, p', c1, {})
            && (BlobRes(blobRef) in p'.owners && p'.owners[BlobRes(blobRef)] == owner ==> Pending(p', c1, owner, fileId, blobRef))
  {
    var c1 := c.(fileIds := c.fileIds + {fileId}, blobs := c.blobs + {blobRef});
    ConsistentFrame(p, p', c, c1, dirty, {RetrieveKey(owner, blobRef)}, {BlobRes(blobRef)});
    SectionKeepsPending(p, c, p', c1, {BlobRes(blobRef)});
  }

  ghost predicate AllDeletable(p: State, owner: string, vs: seq<VersionRecord>, stored: set<string>, deleted: set<string>) {
    forall v :: v in vs ==> Deletable(p, owner, v.blobRef, stored, deleted)
  }

  /** The owner of the blobs can delete all of them exactly when none is gone. */
  lemma WhenAllDeletable(p: State, owner: string, c: Contents, f: string, stored: set<string>)
    requires f in c.versions && OwnedBlobs(p, owner, c.versions[f]) && owner != "" && Backed(c.versions, stored)
    ensures AllDeletable(p, owner, c.versions[f], stored, c.deleted) ==> !PartlyDeleted(c, f)
    ensures "blob" in p.policies && !PartlyDeleted(c, f) ==> AllDeletable(p, owner, c.versions[f], stored, c.deleted)
  {
    forall v | v in c.versions[f] && "blob" in p.policies
      ensures Check(p, owner, "storage.delete_blob", BlobRes(v.blobRef)) == Ok(true)
    {
    }
  }

  // ----- Reading -----

  /** Version `j` is the first one with the reference. */
  predicate IsNamed(vs: seq<VersionRecord>, versionRef: string, j: nat) {
    j < |vs| && vs[j].versionRef == versionRef && forall i :: 0 <= i < j ==> vs[i].versionRef != versionRef
  }

  function Wanted(fo: FileRecord, versionRef: string): string {
    if versionRef == "" then fo.currentVersionRef else versionRef
  }

  /** The blob holds the version asked for, the file's current one if none is named, and is not erased. */
  ghost predicate Readable(c: Contents, f: string, versionRef: string, blobRef: string) {
    && f in c.files && f in c.versions && blobRef !in c.deleted
    && exists j: nat :: IsNamed(c.versions[f], Wanted(c.files[f], versionRef), j)
                        && c.versions[f][j].blobRef == blobRef
  }

  lemma OnlyThisIsReadable(c: Contents, f: string, versionRef: string, v: VersionRecord)
    requires f in c.files && f in c.versions
    requires exists j: nat :: IsNamed(c.versions[f], Wanted(c.files[f], versionRef), j) && c.versions[f][j] == v
    ensures forall blobRef :: Readable(c, f, versionRef, blobRef) <==> blobRef == v.blobRef && blobRef !in c.deleted
    ensures v in c.versions[f]
  {
    var vs := c.versions[f];
    var ref := Wanted(c.files[f], versionRef);
    var j: nat :| IsNamed(vs, ref, j) && vs[j] == v;
    assert forall i: nat :: IsNamed(vs, ref, i) ==> i == j;
  }

  /** After CreateVersion has recorded a version under a fresh reference, that one is read by default, and the others by name as before. */
  lemma NewVersionIsCurrent(c: Contents, c': Contents, f: string, fo: FileRecord, v: VersionRecord, older: string, blobRef: string)
    requires f in c.files && f in c.versions && v.versionRef != "" && v.blobRef !in c'.deleted && c'.deleted == c.deleted
    requires forall j :: 0 <= j < |c.versions[f]| ==> c.versions[f][j].versionRef != v.versionRef
    requires c'.files == c.files[f := fo.(currentVersionRef := v.versionRef)] && c'.versions == c.versions[f := c.versions[f] + [v]]
    ensures Readable(c', f, "", v.blobRef) && Readable(c', f, v.versionRef, v.blobRef)
    ensures older != "" && older != v.versionRef ==> (Readable(c', f, older, blobRef) <==> Readable(c, f, older, blobRef))
  {
    var vs := c.versions[f];
    assert IsNamed(vs + [v], v.versionRef, |vs|);
    assert forall j: nat :: IsNamed(vs + [v], v.versionRef, j) ==> j >= |vs|;
    forall j: nat | older != v.versionRef ensures IsNamed(vs + [v], older, j) <==> IsNamed(vs, older, j) {
      assert forall i :: 0 <= i < |vs| ==> (vs + [v])[i] == vs[i];
      assert (vs + [v])[|vs|] == v;
    }
  }

  /** The subject's retrieve grants on the first `j` versions are as wanted, and the others untouched. */
  ghost predicate MirroredUpTo(p0: State, p: State, subject: string, vs: seq<VersionRecord>, j: int, want: Option<string>) {
    && 0 <= j <= |vs|
    && (forall i :: 0 <= i < j ==> ScopeHeld(p, RetrieveKey(subject, vs[i].blobRef)) == want)
    && (forall i :: j <= i < |vs| ==> ScopeHeld(p, RetrieveKey(subject, vs[i].blobRef)) == ScopeHeld(p0, RetrieveKey(subject, vs[i].blobRef)))
  }

  lemma MirrorExtends(p0: State, p: State, p': State, owner: string, subject: string, vs: seq<VersionRecord>, i: nat, want: Option<string>)
    requires i < |vs| && OwnedBlobs(p0, owner, vs)
    requires OnlyTouches(p0, p, RetrieveKeys(subject, vs[..i])) && OnlyTouches(p, p', {RetrieveKey(subject, vs[i].blobRef)})
    ensures OnlyTouches(p0, p', RetrieveKeys(subject, vs[..i + 1]))
    ensures MirroredUpTo(p0, p, subject, vs, i, want) && ScopeHeld(p', RetrieveKey(subject, vs[i].blobRef)) == want ==>
              MirroredUpTo(p0, p', subject, vs, i + 1, want)
  {
    assert vs[..i + 1] == vs[..i] + [vs[i]];
  }

  /**
   A retrieve while SetFilePermissions is changing the subject's read grant: the
   grant on the file is changed, and the first `j` versions are mirrored.  Storage
   answers by the new grant for those and by the old one for the rest.
   */
  lemma ReadDuringChange(p0: State, p1: State, p: State, c: Catalog, dirty: set<(string, string)>, f: string, subject: string,
                         j: nat, i: nat, want: Option<string>)
    requires Consistent(p0, c, dirty) && f in c.files && (f, subject) !in dirty
    requires subject != "" && subject != c.files[f].owner && "file_object" in p0.policies && "blob" in p0.policies
    requires OnlyTouches(p0, p1, {ReadKey(subject, f)}) && p1.owners == p0.owners && ScopeHeld(p1, ReadKey(subject, f)) == want
    requires OnlyTouches(p1, p, RetrieveKeys(subject, c.versions[f])) && p.owners == p0.owners
    requires MirroredUpTo(p1, p, subject, c.versions[f], j, want) && i < |c.versions[f]|
    ensures Check(p, subject, ACTION_READ, FileRes(f)) == Ok(want.Some?)
    ensures Check(p, subject, RETRIEVE_BLOB, BlobRes(c.versions[f][i].blobRef)) ==
            if i < j then Ok(want.Some?) else Check(p0, subject, ACTION_READ, FileRes(f))
  {
    assert Mirrored(p0, f, c.versions[f], subject);
    assert IsVersion(c, f, i);
    assert ScopeHeld(p0, RetrieveKey(subject, c.versions[f][i].blobRef)) == ScopeHeld(p0, ReadKey(subject, f));
  }

  /**
   So a read that overlaps the granting of its own access can be turned away with
   no call failing: the check on the file passes, the one on the blob does not.
   */
  lemma ReadOvertakesGrant()
    ensures Consistent(ANNS_GRANTS, ANNS_FILE, {})
    ensures var p := AfterGrant(ANNS_GRANTS, GrantRequest("ann", "bob", ACTION_READ, FileRes("f"), SCOPE_FULL), 0);
            && MirroredUpTo(p, p, "bob", ANNS_VERSIONS, 0, Some(SCOPE_FULL))
            && Check(p, "bob", ACTION_READ, FileRes("f")) == Ok(true)
            && Check(p, "bob", RETRIEVE_BLOB, BlobRes("b1")) == Ok(false)
  {
    AnnsFileInStep();
  }

  /** Records changed, owners did not. */
  lemma SameOwners(p: State, c: Catalog, c': Catalog, dirty: set<(string, string)>)
    requires Consistent(p, c, dirty)
    requires c'.versions == c.versions && c'.fileIds == c.fileIds && c'.blobs == c.blobs && c'.files.Keys == c.files.Keys
    requires forall f :: f in c.files ==> c'.files[f].owner == c.files[f].owner
    ensures Consistent(p, c', dirty)
  {
    forall f, j | IsVersion(c', f, j) ensures IsVersion(c, f, j) {
    }
    forall f, s | f in c'.files && f in c'.versions && s != c'.files[f].owner && (f, s) !in dirty
      ensures Mirrored(p, f, c'.versions[f], s)
    {
      assert Mirrored(p, f, c.versions[f], s);
    }
  }

  /** The list holds exactly the file's active grants. */
  ghost predicate ListsFile(p: State, f: string, grants: seq<Permissions.Grant>) {
    && (forall key :: key in p.active && key.resource == FileRes(f) ==> p.active[key] in grants)
    && (forall g :: g in grants ==> g.resource == FileRes(f) && KeyOf(g) in p.active && p.active[KeyOf(g)] == g)
  }

  /** The retrieve grants that mirror the listed read grants of non-owners. */
  function ReaderKeys(owner: string, blobRef: string, grants: seq<Permissions.Grant>): set<GrantKey> {
    set g | g in grants && g.action == ACTION_READ && g.subject != owner :: RetrieveKey(g.subject, blobRef)
  }

  /** Every subject but the owner and the missed ones holds retrieve on the blob exactly as it holds read on the file. */
  ghost predicate ReadersFollow(p: State, f: string, owner: string, blobRef: string, missed: seq<string>) {
    forall s :: s != owner && s !in missed ==> ScopeHeld(p, RetrieveKey(s, blobRef)) == ScopeHeld(p, ReadKey(s, f))
  }

  /** The readers among the first `i` grants that were not missed have their copy. */
  ghost predicate CopiedSoFar(p1: State, p: State, f: string, owner: string, blobRef: string,
                              grants: seq<Permissions.Grant>, i: nat, missed: seq<string>)
    requires i <= |grants|
  {
    forall s :: s != owner && s !in missed && RetrieveKey(s, blobRef) in ReaderKeys(owner, blobRef, grants[..i]) ==>
      ScopeHeld(p, RetrieveKey(s, blobRef)) == ScopeHeld(p1, ReadKey(s, f))
  }

  lemma ReaderKeysAppend(owner: string, blobRef: string, grants: seq<Permissions.Grant>, i: nat)
    requires i < |grants|
    ensures ReaderKeys(owner, blobRef, grants[..i + 1]) ==
            ReaderKeys(owner, blobRef, grants[..i]) +
            if grants[i].action == ACTION_READ && grants[i].subject != owner then {RetrieveKey(grants[i].subject, blobRef)} else {}
  {
    assert grants[..i + 1] == grants[..i] + [grants[i]];
  }

  lemma CopyingExtends(p1: State, p: State, p': State, f: string, owner: string, blobRef: string,
                       grants: seq<Permissions.Grant>, i: nat, before: seq<string>, missed: seq<string>)
    requires GrantsHaveOwners(p1) && ListsFile(p1, f, grants) && i < |grants|
    requires OnlyTouches(p1, p, ReaderKeys(owner, blobRef, grants[..i])) && CopiedSoFar(p1, p, f, owner, blobRef, grants, i, before)
    requires var g := grants[i];
             if g.action == ACTION_READ && g.subject != owner then
               && OnlyTouches(p, p', {RetrieveKey(g.subject, blobRef)})
               && ((missed == before && ScopeHeld(p', RetrieveKey(g.subject, blobRef)) == Some(g.scope)) || missed == before + [g.subject])
             else p' == p && missed == before
    ensures OnlyTouches(p1, p', ReaderKeys(owner, blobRef, grants[..i + 1]))
    ensures CopiedSoFar(p1, p', f, owner, blobRef, grants, i + 1, missed)
  {
    ReaderKeysAppend(owner, blobRef, grants, i);
    assert grants[i] in grants;
  }

  lemma ReadersAreListed(p: State, f: string, owner: string, blobRef: string, grants: seq<Permissions.Grant>)
    requires GrantsHaveOwners(p) && ListsFile(p, f, grants)
    ensures forall s :: s != owner && ScopeHeld(p, ReadKey(s, f)).Some? ==>
              RetrieveKey(s, blobRef) in ReaderKeys(owner, blobRef, grants)
  {
    forall s | s != owner && ReadKey(s, f) in p.active
      ensures RetrieveKey(s, blobRef) in ReaderKeys(owner, blobRef, grants)
    {
      assert p.active[ReadKey(s, f)] in grants;
    }
  }

  // ----- Recording a version -----

  /** The blob of a version about to be recorded. */
  ghost predicate NewBlob(p: State, c: Catalog, f: string, owner: string, blobRef: string, missed: seq<string>) {
    && blobRef in c.blobs && OwnedBy(p, BlobRes(blobRef), owner)
    && (forall g, j :: IsVersion(c, g, j) ==> c.versions[g][j].blobRef != blobRef)
    && ReadersFollow(p, f, owner, blobRef, missed)
  }

  lemma ConsistentAfterRecording(p: State, c: Catalog, c': Catalog, dirty: set<(string, string)>, missedPairs: set<(string, string)>,
                                 fo: FileRecord, v: VersionRecord, missed: seq<string>)
    requires Consistent(p, c, dirty) && fo.fileObjectId in c.files && fo.owner == c.files[fo.fileObjectId].owner
    requires NewBlob(p, c, fo.fileObjectId, fo.owner, v.blobRef, missed)
    requires missedPairs == set s | s in missed :: (fo.fileObjectId, s)
    requires c' == WithVersion(c, fo.fileObjectId, v).(files := c.files[fo.fileObjectId := fo.(currentVersionRef := v.versionRef)])
    ensures Consistent(p, c', dirty + missedPairs)
  {
    ConsistentAfterVersion(p, c, dirty, missedPairs, fo.fileObjectId, v);
    SameOwners(p, WithVersion(c, fo.fileObjectId, v), c', dirty + missedPairs);
  }

  // ----- Clearing grants -----

  function Resources(f: string, vs: seq<VersionRecord>): set<ResourceRef> {
    {FileRes(f)} + set v | v in vs :: BlobRes(v.blobRef)
  }

  function GrantsOn(p: State, resources: set<ResourceRef>): set<GrantKey> {
    set key | key in p.active && key.resource in resources
  }

  ghost predicate NoGrantsOn(p: State, resources: set<ResourceRef>) {
    forall key: GrantKey :: key.resource in resources ==> ScopeHeld(p, key) == None
  }

  lemma AllRevoked(p0: State, p: State, res: ResourceRef, gs: seq<Permissions.Grant>)
    requires GrantsHaveOwners(p0) && OnlyTouches(p0, p, GrantsOn(p0, {res}))
    requires forall key :: key in p0.active && key.resource == res ==> p0.active[key] in gs
    requires forall j :: 0 <= j < |gs| ==> ScopeHeld(p, KeyOf(gs[j])) == None
    ensures NoGrantsOn(p, {res})
  {
    forall key: GrantKey | key.resource == res ensures ScopeHeld(p, key) == None {
      if key in p0.active {
        assert p0.active[key] in gs;
      }
    }
  }

  lemma ClearingComposes(p0: State, p: State, q: State, done: set<ResourceRef>, res: ResourceRef)
    requires OnlyTouches(p0, p, GrantsOn(p0, done)) && OnlyTouches(p, q, GrantsOn(p, {res}))
    ensures OnlyTouches(p0, q, GrantsOn(p0, done + {res}))
    ensures NoGrantsOn(p, done) && NoGrantsOn(q, {res}) ==> NoGrantsOn(q, done + {res})
  {
    forall key | key !in GrantsOn(p0, done + {res}) ensures ScopeHeld(q, key) == ScopeHeld(p0, key) {
      assert key !in GrantsOn(p0, done);
      assert ScopeHeld(p, key) == ScopeHeld(p0, key);
    }
  }

  /** Clearing touches one file's pairs; those of subjects in `lost` may be out of step, the others have no grants left. */
  lemma ConsistentAfterClearing(p: State, p': State, c: Catalog, dirty: set<(string, string)>,
                                lost: set<(string, string)>, f: string)
    requires Consistent(p, c, dirty) && f in c.files
    requires GrantsHaveOwners(p') && p'.owners == p.owners
    requires OnlyTouches(p, p', GrantsOn(p, Resources(f, c.versions[f])))
    requires NoGrantsOn(p', Resources(f, c.versions[f])) || forall key :: key in p.active ==> (f, key.subject) in lost
    ensures Consistent(p', c, dirty + lost)
  {
    forall g, s | g in c.files && g in c.versions && s != c.files[g].owner && (g, s) !in dirty + lost
      ensures Mirrored(p', g, c.versions[g], s)
    {
      assert Mirrored(p, g, c.versions[g], s);
      var touched := GrantsOn(p, Resources(f, c.versions[f]));
      if g != f {
        forall j | 0 <= j < |c.versions[g]| ensures RetrieveKey(s, c.versions[g][j].blobRef) !in touched {
          assert IsVersion(c, g, j);
          forall v | v in c.versions[f] ensures v.blobRef != c.versions[g][j].blobRef {
            var i :| 0 <= i < |c.versions[f]| && c.versions[f][i] == v;
            assert IsVersion(c, f, i);
          }
        }
        MirrorFrame(p, p', g, c.versions[g], s, touched);
      } else if !NoGrantsOn(p', Resources(f, c.versions[f])) {
        MirrorFrame(p, p', g, c.versions[g], s, touched);
      }
    }
  }

  /** Granting on a blob that is no version yet disturbs nothing. */
  lemma FreshBlobFrame(p: State, p': State, c: Catalog, dirty: set<(string, string)>, owner: string, blobRef: string)
    requires Consistent(p, c, dirty) && blobRef !in c.blobs && blobRef != ""
    requires Within(p, p', {RetrieveKey(owner, blobRef)}, {BlobRes(blobRef)})
    ensures Consistent(p', c.(blobs := c.blobs + {blobRef}), dirty)
    ensures forall s :: s != owner ==> ScopeHeld(p', RetrieveKey(s, blobRef)) == None
    ensures forall g, j :: IsVersion(c, g, j) ==> c.versions[g][j].blobRef != blobRef
  {
    ConsistentFrame(p, p', c, c.(blobs := c.blobs + {blobRef}), dirty, {RetrieveKey(owner, blobRef)}, {BlobRes(blobRef)});
  }

  lemma NewBlobFrame(p: State, p': State, c: Catalog, dirty: set<(string, string)>, f: string, owner: string, blobRef: string,
                     grants: seq<Permissions.Grant>)
    requires Consistent(p, c, dirty) && forall g, j :: IsVersion(c, g, j) ==> c.versions[g][j].blobRef != blobRef
    requires GrantsHaveOwners(p') && p'.owners == p.owners && OnlyTouches(p, p', ReaderKeys(owner, blobRef, grants))
    ensures Consistent(p', c, dirty)
  {
    ConsistentFrame(p, p', c, c, dirty, ReaderKeys(owner, blobRef, grants), {});
  }

  /** A pair that is in step, or whose subject is the owner, needs no entry among the dirty ones. */
  lemma Settled(p: State, c: Catalog, dirty: set<(string, string)>, f: string, subject: string)
    requires Consistent(p, c, dirty + {(f, subject)}) && f in c.files
    requires subject == c.files[f].owner || Mirrored(p, f, c.versions[f], subject)
    ensures Consistent(p, c, dirty - {(f, subject)})
  {
  }

  /** After the file's grant became `want`, mirroring without a failure puts the pair in step. */
  lemma MirrorOutcome(p0: State, p1: State, p2: State, f: string, vs: seq<VersionRecord>, subject: string,
                      want: Option<string>, complete: bool)
    requires OnlyTouches(p0, p1, {ReadKey(subject, f)}) && OnlyTouches(p1, p2, RetrieveKeys(subject, vs))
    requires ScopeHeld(p1, ReadKey(subject, f)) == want
    requires complete ==> MirroredUpTo(p1, p2, subject, vs, |vs|, want)
    ensures ScopeHeld(p2, ReadKey(subject, f)) == want
    ensures complete ==> Mirrored(p2, f, vs, subject)
    ensures Mirrored(p0, f, vs, subject) && ScopeHeld(p0, ReadKey(subject, f)).Some? ==> HeldOnAll(p1, subject, vs)
  {
    if Mirrored(p0, f, vs, subject) && ScopeHeld(p0, ReadKey(subject, f)).Some? {
      forall v | v in vs ensures ScopeHeld(p1, RetrieveKey(subject, v.blobRef)).Some? {
        var j :| 0 <= j < |vs| && vs[j] == v;
        assert ScopeHeld(p0, RetrieveKey(subject, vs[j].blobRef)) == ScopeHeld(p0, ReadKey(subject, f));
      }
    }
  }
}
