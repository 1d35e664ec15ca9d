/**
 File Objects: every read grant on a file is mirrored onto the blob of every
 version, and Storage hands the bytes out by looking at the blob alone.

 The mirror is kept by sections that run under one mutex; `Consistent` is what
 holds when nobody is inside.  CreateFileObject runs outside it, but on ids that
 no section uses yet: `BootstrapIsInvisible` says that its calls, however the
 sections come in between, disturb no mirror.
 */
module FileObjects {
  import opened Wrappers
  import opened Permissions
  import opened PermissionEffects

  const ACTION_READ := "fileobjects.read"
  const ACTION_WRITE := "fileobjects.write"
  const RETRIEVE_BLOB := "storage.retrieve_blob"
  const SCOPE_FULL := "full"

  datatype FileRecord = FileRecord(fileObjectId: string, owner: string, currentVersionRef: string, deleted: bool, name: string)

  datatype VersionRecord = VersionRecord(versionRef: string, blobRef: string, createdBy: string)

  datatype FileError =
    | InvalidArgument | InvalidPermissionAction | FileNotFound | VersionNotFound | FileDeleted | PermissionDenied | ContentUnavailable
    | GrantFailed | RevokeFailed | StoreFailed | ListingFailed | AuditFailed
    | MirrorIncomplete(missed: seq<string>) | ContentNotDeleted(versions: seq<string>)

  function FileRes(fileObjectId: string): ResourceRef {
    ResourceRef("file_object", fileObjectId)
  }

  function BlobRes(blobRef: string): ResourceRef {
    ResourceRef("blob", blobRef)
  }

  function ReadKey(subject: string, fileObjectId: string): GrantKey {
    GrantKey(subject, ACTION_READ, FileRes(fileObjectId))
  }

  function RetrieveKey(subject: string, blobRef: string): GrantKey {
    GrantKey(subject, RETRIEVE_BLOB, BlobRes(blobRef))
  }

  // ----- The mirror -----

  /** The subject holds retrieve on every version's blob exactly as it holds read on the file, scope included. */
  ghost predicate Mirrored(p: State, fileObjectId: string, versions: seq<VersionRecord>, subject: string) {
    forall j :: 0 <= j < |versions| ==>
      ScopeHeld(p, RetrieveKey(subject, versions[j].blobRef)) == ScopeHeld(p, ReadKey(subject, fileObjectId))
  }

  /** What the stores hold: files, versions, and the file and blob ids ever generated. */
  datatype Catalog = Catalog(files: map<string, FileRecord>, versions: map<string, seq<VersionRecord>>,
                             fileIds: set<string>, blobs: set<string>)

  predicate IsVersion(c: Catalog, f: string, j: int) {
    f in c.files && f in c.versions && 0 <= j < |c.versions[f]|
  }

  ghost predicate CatalogValid(c: Catalog) {
    && c.files.Keys == c.versions.Keys && c.files.Keys <= c.fileIds
    && "" !in c.files && "" !in c.blobs
    && (forall f :: f in c.files ==> c.files[f].owner != "")
    && (forall f, j :: IsVersion(c, f, j) ==> c.versions[f][j].blobRef in c.blobs)
    && (forall f, g, i, j :: IsVersion(c, f, i) && IsVersion(c, g, j) && (f != g || i != j) ==>
          c.versions[f][i].blobRef != c.versions[g][j].blobRef)
  }

  /** File and blob resources exist in Permissions only for ids this service generated. */
  ghost predicate ResourcesKnown(p: State, c: Catalog) {
    && GrantsHaveOwners(p)
    && (forall r :: r in p.owners && r.resourceType == "file_object" ==> r.resourceId in c.fileIds)
    && (forall r :: r in p.owners && r.resourceType == "blob" ==> r.resourceId in c.blobs)
  }

  /** Permissions agrees on who owns each file and each version's blob: the file's owner. */
  ghost predicate OwnersAgree(p: State, c: Catalog) {
    && (forall f :: f in c.files ==> FileRes(f) in p.owners && p.owners[FileRes(f)] == c.files[f].owner)
    && (forall f, j :: IsVersion(c, f, j) ==>
          BlobRes(c.versions[f][j].blobRef) in p.owners &&
          p.owners[BlobRes(c.versions[f][j].blobRef)] == c.files[f].owner)
  }

  /** Only the pairs of file and subject in `dirty` can be out of step. */
  ghost predicate MirrorExcept(p: State, c: Catalog, dirty: set<(string, string)>) {
    forall f, s :: f in c.files && f in c.versions && s != c.files[f].owner && (f, s) !in dirty ==>
      Mirrored(p, f, c.versions[f], s)
  }

  ghost predicate Consistent(p: State, c: Catalog, dirty: set<(string, string)>) {
    CatalogValid(c) && ResourcesKnown(p, c) && OwnersAgree(p, c) && MirrorExcept(p, c, dirty)
  }

  /** The reads of a user follow: on a clean pair, reading the file and retrieving any version stand or fall together. */
  lemma ReadersReachEveryVersion(p: State, c: Catalog, dirty: set<(string, string)>, f: string, j: nat, s: string)
    requires Consistent(p, c, dirty) && f in c.files && j < |c.versions[f]|
    requires "file_object" in p.policies && "blob" in p.policies && s != ""
    requires (f, s) !in dirty || s == c.files[f].owner
    ensures Check(p, s, "fileobjects.read", ResourceRef("file_object", f)) ==
            Check(p, s, "storage.retrieve_blob", ResourceRef("blob", c.versions[f][j].blobRef))
    ensures s == c.files[f].owner ==> Check(p, s, ACTION_READ, FileRes(f)) == Ok(true)
  {
    if s != c.files[f].owner {
      assert Mirrored(p, f, c.versions[f], s);
      assert ScopeHeld(p, RetrieveKey(s, c.versions[f][j].blobRef)) == ScopeHeld(p, ReadKey(s, f));
    }
  }

  /** A change that touches neither this file's read grant nor its blobs' retrieve grants leaves the mirror alone. */
  lemma MirrorFrame(p: State, p': State, f: string, versions: seq<VersionRecord>, s: string, touched: set<GrantKey>)
    requires OnlyTouches(p, p', touched) && Mirrored(p, f, versions, s)
    requires ReadKey(s, f) !in touched
    requires forall j :: 0 <= j < |versions| ==> RetrieveKey(s, versions[j].blobRef) !in touched
    ensures Mirrored(p', f, versions, s)
  {
    forall j | 0 <= j < |versions|
      ensures ScopeHeld(p', RetrieveKey(s, versions[j].blobRef)) == ScopeHeld(p', ReadKey(s, f))
    {
      assert ScopeHeld(p, RetrieveKey(s, versions[j].blobRef)) == ScopeHeld(p, ReadKey(s, f));
    }
  }

  /**
   Touching only grants of the subjects of `f` in `subjects`, on the file and on
   blobs, keeps everything consistent once those subjects' new state is known.
   */
  lemma ConsistentFrame(p: State, p': State, c: Catalog, c': Catalog, dirty: set<(string, string)>,
                        touched: set<GrantKey>, born: set<ResourceRef>)
    requires Consistent(p, c, dirty)
    requires Within(p, p', touched, born)
    requires c'.files.Keys == c.files.Keys && c'.versions == c.versions && c.blobs <= c'.blobs && c.fileIds <= c'.fileIds
    requires "" !in c'.blobs
    requires forall f :: f in c.files ==> c'.files[f].owner == c.files[f].owner
    requires forall r :: r in born ==> (r.resourceType == "blob" && r.resourceId in c'.blobs) ||
                                       (r.resourceType == "file_object" && r.resourceId in c'.fileIds)
    requires forall key :: key in touched ==> Irrelevant(c, key)
    ensures Consistent(p', c', dirty)
  {
    forall f, s | f in c'.files && f in c'.versions && s != c'.files[f].owner && (f, s) !in dirty
      ensures Mirrored(p', f, c'.versions[f], s)
    {
      assert Mirrored(p, f, c.versions[f], s);
      forall j | 0 <= j < |c.versions[f]| ensures RetrieveKey(s, c.versions[f][j].blobRef) !in touched {
        assert IsVersion(c, f, j);
      }
      MirrorFrame(p, p', f, c.versions[f], s, touched);
    }
  }

  /** A grant no mirror depends on: not a read grant of a file, not a grant on a version's blob by a non-owner. */
  ghost predicate Irrelevant(c: Catalog, key: GrantKey) {
    && (forall f, s :: f in c.files && s != c.files[f].owner ==> key != ReadKey(s, f))
    && (forall f, j, s :: IsVersion(c, f, j) && s != c.files[f].owner ==> key != RetrieveKey(s, c.versions[f][j].blobRef))
  }

  /** Keys that can matter to the mirror of the pair of `f` and `subject`, and to no other pair. */
  ghost predicate BelongsTo(c: Catalog, f: string, subject: string, key: GrantKey) {
    key.subject == subject &&
    (key.resource == FileRes(f) || exists j :: IsVersion(c, f, j) && key.resource == BlobRes(c.versions[f][j].blobRef))
  }

  lemma OtherPairsKeepMirror(p: State, p': State, c: Catalog, dirty: set<(string, string)>,
                             f: string, subject: string, touched: set<GrantKey>)
    requires CatalogValid(c) && MirrorExcept(p, c, dirty) && OnlyTouches(p, p', touched) && f in c.files
    requires forall key :: key in touched ==> BelongsTo(c, f, subject, key)
    ensures MirrorExcept(p', c, dirty + {(f, subject)})
  {
    forall g, s | g in c.files && g in c.versions && s != c.files[g].owner && (g, s) !in dirty + {(f, subject)}
      ensures Mirrored(p', g, c.versions[g], s)
    {
      assert Mirrored(p, g, c.versions[g], s);
      forall j | 0 <= j < |c.versions[g]| ensures RetrieveKey(s, c.versions[g][j].blobRef) !in touched {
        assert IsVersion(c, g, j);
      }
      MirrorFrame(p, p', g, c.versions[g], s, touched);
    }
  }

  ghost predicate HeldOnAll(p: State, subject: string, vs: seq<VersionRecord>) {
    forall v :: v in vs ==> ScopeHeld(p, RetrieveKey(subject, v.blobRef)).Some?
  }

  /** Every listed version's blob exists in Permissions, owned by `owner`, and no blob is listed twice. */
  ghost predicate OwnedBlobs(p: State, owner: string, vs: seq<VersionRecord>) {
    && (forall v :: v in vs ==> v.blobRef != "" && BlobRes(v.blobRef) in p.owners && p.owners[BlobRes(v.blobRef)] == owner)
    && (forall i, j :: 0 <= i < j < |vs| ==> vs[i].blobRef != vs[j].blobRef)
  }

  lemma VersionsAreOwned(p: State, c: Catalog, dirty: set<(string, string)>, f: string)
    requires Consistent(p, c, dirty) && f in c.files
    ensures OwnedBlobs(p, c.files[f].owner, c.versions[f])
  {
    forall v | v in c.versions[f]
      ensures v.blobRef != "" && BlobRes(v.blobRef) in p.owners && p.owners[BlobRes(v.blobRef)] == c.files[f].owner
    {
      var j :| 0 <= j < |c.versions[f]| && c.versions[f][j] == v;
      assert IsVersion(c, f, j);
    }
    forall i, j | 0 <= i < j < |c.versions[f]| ensures c.versions[f][i].blobRef != c.versions[f][j].blobRef {
      assert IsVersion(c, f, i) && IsVersion(c, f, j);
    }
  }

  function RetrieveKeys(subject: string, vs: seq<VersionRecord>): set<GrantKey> {
    set v | v in vs :: RetrieveKey(subject, v.blobRef)
  }

  /** The grants a permission change of the file can touch. */
  function ChangedKeys(f: string, vs: seq<VersionRecord>, subject: string, action: string): set<GrantKey> {
    {GrantKey(subject, action, FileRes(f))} + if action == ACTION_READ then RetrieveKeys(subject, vs) else {}
  }

  /** One subject's grants on one file and its blobs changed; only that pair can be out of step. */
  lemma ConsistentAfterChange(p: State, p': State, c: Catalog, c': Catalog, dirty: set<(string, string)>,
                              f: string, subject: string, touched: set<GrantKey>)
    requires Consistent(p, c, dirty) && f in c.files
    requires GrantsHaveOwners(p') && p'.owners == p.owners && OnlyTouches(p, p', touched)
    requires forall key :: key in touched ==>
               (key.subject == subject && key.resource == FileRes(f)) || key in RetrieveKeys(subject, c.versions[f])
    requires c'.versions == c.versions && c'.fileIds == c.fileIds && c'.blobs == c.blobs
    requires c'.files.Keys == c.files.Keys && forall g :: g in c.files ==> c'.files[g].owner == c.files[g].owner
    ensures Consistent(p', c', dirty + {(f, subject)})
  {
    forall key | key in touched ensures BelongsTo(c, f, subject, key) {
      if key in RetrieveKeys(subject, c.versions[f]) {
        var v :| v in c.versions[f] && key == RetrieveKey(subject, v.blobRef);
        var j :| 0 <= j < |c.versions[f]| && c.versions[f][j] == v;
        assert IsVersion(c, f, j);
      }
    }
    OtherPairsKeepMirror(p, p', c, dirty, f, subject, touched);
    forall g, s | g in c'.files && g in c'.versions && s != c'.files[g].owner && (g, s) !in dirty + {(f, subject)}
      ensures Mirrored(p', g, c'.versions[g], s)
    {
    }
    forall g, j | IsVersion(c', g, j) ensures IsVersion(c, g, j) {
    }
  }

  /** A change that leaves one subject's read and retrieve grants alone leaves its mirror alone. */
  lemma MirroredUntouched(p: State, p': State, f: string, vs: seq<VersionRecord>, subject: string, touched: set<GrantKey>)
    requires Mirrored(p, f, vs, subject) && OnlyTouches(p, p', touched)
    requires touched <= {GrantKey(subject, ACTION_WRITE, FileRes(f))}
    ensures Mirrored(p', f, vs, subject)
  {
    MirrorFrame(p, p', f, vs, subject, touched);
  }

  // ----- New files and new versions -----

  predicate OwnedBy(p: State, r: ResourceRef, owner: string) {
    r in p.owners && p.owners[r] == owner
  }

  function BootstrapKeys(owner: string, fileId: string, blobRef: string): set<GrantKey> {
    {ReadKey(owner, fileId), GrantKey(owner, ACTION_WRITE, FileRes(fileId)), RetrieveKey(owner, blobRef)}
  }

  function WithVersion(c: Catalog, f: string, v: VersionRecord): Catalog
    requires f in c.versions
  {
    c.(versions := c.versions[f := c.versions[f] + [v]])
  }

  /**
   A new version keeps everything consistent when its blob belongs to the file's
   owner and the blob's retrieve grants repeat the file's read grants.
   */
  lemma ConsistentAfterVersion(p: State, c: Catalog, dirty: set<(string, string)>, missed: set<(string, string)>,
                               f: string, v: VersionRecord)
    requires Consistent(p, c, dirty) && f in c.files
    requires v.blobRef in c.blobs && BlobRes(v.blobRef) in p.owners && p.owners[BlobRes(v.blobRef)] == c.files[f].owner
    requires forall g, j :: IsVersion(c, g, j) ==> c.versions[g][j].blobRef != v.blobRef
    requires forall s :: s != c.files[f].owner && (f, s) !in missed ==>
               ScopeHeld(p, RetrieveKey(s, v.blobRef)) == ScopeHeld(p, ReadKey(s, f))
    ensures Consistent(p, WithVersion(c, f, v), dirty + missed)
  {
    var c' := WithVersion(c, f, v);
    forall g, j | IsVersion(c', g, j)
      ensures IsVersion(c, g, j) || (g == f && j == |c.versions[f]| && c'.versions[g][j] == v)
      ensures IsVersion(c, g, j) ==> c'.versions[g][j] == c.versions[g][j]
    {
    }
    forall g, s | g in c'.files && g in c'.versions && s != c'.files[g].owner && (g, s) !in dirty + missed
      ensures Mirrored(p, g, c'.versions[g], s)
    {
      assert Mirrored(p, g, c.versions[g], s);
    }
  }

  function WithFile(c: Catalog, fo: FileRecord, v: VersionRecord): Catalog {
    c.(files := c.files[fo.fileObjectId := fo], versions := c.versions[fo.fileObjectId := [v]])
  }

  /** A file only its owner holds grants on is in step from the start. */
  lemma ConsistentWithFile(p: State, c: Catalog, dirty: set<(string, string)>, fo: FileRecord, v: VersionRecord)
    requires Consistent(p, c, dirty)
    requires fo.fileObjectId in c.fileIds && fo.fileObjectId !in c.files && fo.fileObjectId != "" && fo.owner != ""
    requires v.blobRef in c.blobs && forall g, j :: IsVersion(c, g, j) ==> c.versions[g][j].blobRef != v.blobRef
    requires OwnedBy(p, FileRes(fo.fileObjectId), fo.owner) && OwnedBy(p, BlobRes(v.blobRef), fo.owner)
    requires forall s :: s != fo.owner ==>
               ScopeHeld(p, RetrieveKey(s, v.blobRef)) == None && ScopeHeld(p, ReadKey(s, fo.fileObjectId)) == None
    ensures Consistent(p, WithFile(c, fo, v), dirty)
  {
    var f := fo.fileObjectId;
    var c' := WithFile(c, fo, v);
    forall g, j | IsVersion(c', g, j)
      ensures (g == f && j == 0 && c'.versions[g][j] == v) || (g != f && IsVersion(c, g, j) && c'.versions[g][j] == c.versions[g][j])
    {
    }
    forall g, s | g in c'.files && g in c'.versions && s != c'.files[g].owner && (g, s) !in dirty
      ensures Mirrored(p, g, c'.versions[g], s)
    {
      if g != f {
        assert Mirrored(p, g, c.versions[g], s);
      }
    }
  }

  /** Ids that are generated but not yet in any record. */
  ghost predicate Reserved(c: Catalog, fileId: string, blobRef: string) {
    && fileId in c.fileIds && fileId !in c.files && blobRef in c.blobs && blobRef != ""
    && forall g, j :: IsVersion(c, g, j) ==> c.versions[g][j].blobRef != blobRef
  }

  /** Nobody but the owner holds anything on the reserved ids, or owns them. */
  ghost predicate OnlyOwnerHolds(p: State, owner: string, fileId: string, blobRef: string) {
    && (FileRes(fileId) in p.owners ==> p.owners[FileRes(fileId)] == owner)
    && (BlobRes(blobRef) in p.owners ==> p.owners[BlobRes(blobRef)] == owner)
    && forall s :: s != owner ==> ScopeHeld(p, RetrieveKey(s, blobRef)) == None && ScopeHeld(p, ReadKey(s, fileId)) == None
  }

  /** A call of CreateFileObject or of its rollback: on the owner's three keys of the two reserved resources. */
  ghost predicate BootstrapCall(p: State, p': State, owner: string, fileId: string, blobRef: string) {
    && Within(p, p', BootstrapKeys(owner, fileId, blobRef), {FileRes(fileId), BlobRes(blobRef)})
    && (forall r :: r in p'.owners && r !in p.owners ==> p'.owners[r] == owner)
  }

  /** CreateFileObject takes no mutex: its calls keep every mirror. */
  lemma BootstrapIsInvisible(p: State, p': State, c: Catalog, dirty: set<(string, string)>, owner: string, fileId: string, blobRef: string)
    requires Reserved(c, fileId, blobRef) && OnlyOwnerHolds(p, owner, fileId, blobRef) && Consistent(p, c, dirty)
    requires BootstrapCall(p, p', owner, fileId, blobRef)
    ensures Consistent(p', c, dirty) && OnlyOwnerHolds(p', owner, fileId, blobRef)
  {
    ConsistentFrame(p, p', c, c, dirty, BootstrapKeys(owner, fileId, blobRef), {FileRes(fileId), BlobRes(blobRef)});
  }

  /** However its calls interleaved, a creation that has both owner grants ends with the new file in step. */
  lemma CreateEndsInStep(p: State, c: Catalog, dirty: set<(string, string)>, fo: FileRecord, v: VersionRecord)
    requires Consistent(p, c, dirty) && fo.fileObjectId != "" && fo.owner != ""
    requires Reserved(c, fo.fileObjectId, v.blobRef) && OnlyOwnerHolds(p, fo.owner, fo.fileObjectId, v.blobRef)
    requires FileRes(fo.fileObjectId) in p.owners && BlobRes(v.blobRef) in p.owners
    ensures Consistent(p, WithFile(c, fo, v), dirty)
  {
    ConsistentWithFile(p, c, dirty, fo, v);
  }

  /** A creation under way: its ids are reserved, and only its owner holds anything on them. */
  ghost predicate Pending(p: State, c: Catalog, owner: string, fileId: string, blobRef: string) {
    Reserved(c, fileId, blobRef) && OnlyOwnerHolds(p, owner, fileId, blobRef) && fileId != "" && owner != ""
  }

  /** Grants and ownership on other resources are as before. */
  ghost predicate OnlyOn(p: State, p': State, resources: set<ResourceRef>) {
    && (forall key: GrantKey :: key.resource !in resources ==> ScopeHeld(p', key) == ScopeHeld(p, key))
    && (forall r: ResourceRef :: r !in resources ==>
          (r in p'.owners <==> r in p.owners) && (r in p.owners ==> p'.owners[r] == p.owners[r]))
  }

  /** Every creation under way stays under way, except on the resources `mine`. */
  ghost predicate KeepsPending(p: State, c: Catalog, p': State, c': Catalog, mine: set<ResourceRef>) {
    forall owner, fileId, blobRef :: Pending(p, c, owner, fileId, blobRef) && FileRes(fileId) !in mine && BlobRes(blobRef) !in mine ==>
      Pending(p', c', owner, fileId, blobRef)
  }

  /** The resource of a recorded file or of its version, or of a blob not used before. */
  ghost predicate Unreserved(c: Catalog, r: ResourceRef) {
    || (exists f :: f in c.files && r == FileRes(f))
    || (exists f, j :: IsVersion(c, f, j) && r == BlobRes(c.versions[f][j].blobRef))
    || (exists b :: b !in c.blobs && r == BlobRes(b))
  }

  /** The catalog grows by versions with new blobs only. */
  ghost predicate CatalogGrows(c: Catalog, c': Catalog) {
    && c'.files.Keys == c.files.Keys && c.fileIds <= c'.fileIds && c.blobs <= c'.blobs
    && (forall f, j :: IsVersion(c', f, j) ==>
          c'.versions[f][j].blobRef !in c.blobs || (IsVersion(c, f, j) && c'.versions[f][j] == c.versions[f][j]))
  }

  /** A section works on resources that no creation has reserved. */
  lemma SectionKeepsPending(p: State, c: Catalog, p': State, c': Catalog, resources: set<ResourceRef>)
    requires OnlyOn(p, p', resources) && CatalogGrows(c, c') && forall r :: r in resources ==> Unreserved(c, r)
    ensures KeepsPending(p, c, p', c', {})
  {
    forall owner, fileId, blobRef | Pending(p, c, owner, fileId, blobRef) ensures Pending(p', c', owner, fileId, blobRef) {
      assert !Unreserved(c, FileRes(fileId)) && !Unreserved(c, BlobRes(blobRef));
      assert forall s :: ReadKey(s, fileId).resource !in resources && RetrieveKey(s, blobRef).resource !in resources;
    }
  }

  /** A creation's own call leaves the other creations under way. */
  lemma CreationKeepsPending(p: State, c: Catalog, p': State, c': Catalog, fileId: string, blobRef: string)
    requires OnlyOn(p, p', {FileRes(fileId), BlobRes(blobRef)}) && c.fileIds <= c'.fileIds && c.blobs <= c'.blobs
    requires c'.files.Keys <= c.files.Keys + {fileId}
    requires forall f, j :: IsVersion(c', f, j) ==>
               c'.versions[f][j].blobRef == blobRef || (IsVersion(c, f, j) && c'.versions[f][j] == c.versions[f][j])
    ensures KeepsPending(p, c, p', c', {FileRes(fileId), BlobRes(blobRef)})
  {
  }

  /** Storage has every version's blob on record. */
  ghost predicate Backed(versions: map<string, seq<VersionRecord>>, stored: set<string>) {
    forall f, v :: f in versions && v in versions[f] ==> v.blobRef in stored
  }

  // ----- Storage, as this service uses it -----

  /** What Storage's own permission check and record say about a delete. */
  ghost predicate Deletable(p: State, requester: string, blobRef: string, stored: set<string>, deleted: set<string>) {
    Check(p, requester, "storage.delete_blob", BlobRes(blobRef)) == Ok(true) && blobRef in stored && blobRef !in deleted
  }

  ghost predicate Retrievable(p: State, requester: string, blobRef: string, stored: set<string>, deleted: set<string>) {
    Check(p, requester, RETRIEVE_BLOB, BlobRes(blobRef)) == Ok(true) && blobRef in stored && blobRef !in deleted
  }

  /**
   Storing a blob bootstraps its owner in Permissions; a failed store leaves
   nothing anyone was told of.  `stored` are the blobs StoreBlob returned,
   `deleted` those with a tombstone.
   */
  class BlobStore {
    const perms: PermissionsClient
    var used: set<string>
    var stored: set<string>
    var deleted: set<string>

    constructor (perms: PermissionsClient)
      ensures this.perms == perms && used == {} && stored == {} && deleted == {}
    {
      this.perms := perms;
      used, stored, deleted := {}, {}, {};
    }

    method StoreBlob(owner: string, size: nat, blobRef: string, now: int) returns (ok: bool)
      requires blobRef != "" && blobRef !in used
      requires GrantsHaveOwners(perms.View()) && BlobRes(blobRef) !in perms.View().owners
      modifies this`used, this`stored, perms, perms.service.store
      ensures used == old(used) + {blobRef} && stored == old(stored) + if ok then {blobRef} else {}
      ensures GrantsHaveOwners(perms.View())
      ensures OnlyTouches(old(perms.View()), perms.View(), {RetrieveKey(owner, blobRef)})
      ensures OwnersOnlyOn(old(perms.View()), perms.View(), {BlobRes(blobRef)})
      ensures ok ==> BlobRes(blobRef) in perms.View().owners && perms.View().owners[BlobRes(blobRef)] == owner
      ensures ok ==> owner != "" && size > 0 && ScopeHeld(perms.View(), RetrieveKey(owner, blobRef)) == Some("full")
      ensures !ok && owner != "" && size > 0 ==> perms.faulted
      ensures old(perms.faulted) ==> perms.faulted
    {
      used := used + {blobRef};
      if owner == "" || size == 0 {
        return false;
      }
      GrantEffect(perms.View(), GrantRequest(owner, owner, RETRIEVE_BLOB, BlobRes(blobRef), SCOPE_FULL), now);
      var granted := perms.Grant(owner, owner, RETRIEVE_BLOB, BlobRes(blobRef), SCOPE_FULL, now);
      if !granted {
        return false;
      }
      var audited := perms.Emit();
      if !audited {
        var _ := perms.Revoke(owner, owner, RETRIEVE_BLOB, BlobRes(blobRef), now);
        return false;
      }
      stored := stored + {blobRef};
      return true;
    }

    /** Storage's own check is on the blob alone. */
    method RetrieveBlob(blobRef: string, subject: string) returns (ok: bool)
      modifies perms
      ensures ok ==> Retrievable(perms.View(), subject, blobRef, stored, deleted)
      ensures !perms.faulted ==> (ok <==> Retrievable(perms.View(), subject, blobRef, stored, deleted))
      ensures old(perms.faulted) ==> perms.faulted
    {
      var allowed := perms.CheckPermission(subject, RETRIEVE_BLOB, BlobRes(blobRef));
      if allowed != Ok(true) || blobRef !in stored || blobRef in deleted {
        return false;
      }
      ok := perms.Emit();
    }

    /** When only the audit event is refused, the blob is deleted and the caller is told of a failure. */
    method DeleteBlob(blobRef: string, requestingSubject: string) returns (ok: bool)
      modifies this`deleted, perms
      ensures old(deleted) <= deleted <= old(deleted) + {blobRef}
      ensures ok ==> blobRef in deleted && Deletable(perms.View(), requestingSubject, blobRef, stored, old(deleted))
      ensures !perms.faulted ==> (ok <==> Deletable(perms.View(), requestingSubject, blobRef, stored, old(deleted)))
      ensures old(perms.faulted) ==> perms.faulted
    {
      var allowed := perms.CheckPermission(requestingSubject, "storage.delete_blob", BlobRes(blobRef));
      if allowed != Ok(true) || blobRef !in stored || blobRef in deleted {
        return false;
      }
      var erased: bool := *;
      if !erased {
        perms.faulted := true;
        return false;
      }
      deleted := deleted + {blobRef};
      ok := perms.Emit();
    }
  }
}
