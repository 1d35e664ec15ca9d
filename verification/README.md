# A verified model of the Ascend services and the on-device crypto module

This Dafny project models the protocols of the Ascend backend (sessions,
permissions, file objects, storage, conversations, audit, identity) and of the
mobile crypto module (asynchronous locks, base64, wire formats), and proves what
they promise over every run, every interleaving and every input.

Check everything with `dafny verify dfyconfig.toml`.

## How the model is built

* A store or service whose methods change fields is a class. Each method is
  proved against a function on the abstract state, and the promises are lemmas
  about those functions.
* What runs concurrently is a step machine. A label names one store operation of
  one request (or one turn of JavaScript), `Enabled` says when it can happen,
  `Apply` performs it, and a run is any sequence of labels, so the theorems range
  over every interleaving. History fields record what happened; no step reads them.
* A call that may fail or crash does so by an arbitrary choice. `faulted` is a
  specification field that remembers that a call to another capability failed since the
  current request began.
* Signatures, hashes, key agreement and ciphers are parameters. What is assumed of
  them is a named predicate on the lemma that needs it.

| files | subject |
|---|---|
| `SessionStores`, `SessionProtocol`, `SessionSafety`, `SessionTheorems`, `SessionRevocation`, `SessionAnswers` | issuing, validating and revoking sessions concurrently |
| `Scopes`, `Permissions`, `PermissionRules`, `PermissionsHistory`, `PermissionEffects` | grants, delegation, the history, and Permissions as other services see it |
| `FileObjects`, `FileHistory`, `FileService` | read grants mirrored onto the blob of every version; what becomes of a file's record |
| `StorageMachine`, `StorageSafety`, `StorageTheorems`, `StorageErasure`, `StorageAlone`, `StorageAtRest` | storing, moving, deleting and reading blobs concurrently, with failing backends |
| `ConversationStore`, `Conversations`, `MessagePages` | one conversation per pair through crashes; pagination |
| `AuditChain`, `AuditExport` | the hash chain, querying and exporting |
| `AsyncLock`, `GuardedStore`, `RatchetAndPrekeys`, `RatchetMessages` | the promise mutex, and what it guards: prekeys, and the messages of a ratchet session |
| `Bytes`, `Base64`, `MessageEnvelope`, `SessionPayload`, `SealedEnvelope` | codecs |
| `Fields`, `IdentityBinding` | NUL-separated messages; device binding proofs |

## Where code and documentation part

The model follows the code. Each of these is stated by a member below.

* `services/api/internal/identity/sign.go` says a device name cannot contain NUL; the
  service does not reject one. The signed message is injective all the same
  (`MessageIsInjective`).
* `services/api/internal/audit/export.go` tells a reader how to check an exported trail.
  A trail of one subject passes that check exactly when the subject's events are the
  beginning of the whole log (`TrailPassesIffPrefix`, `SecondActorsTrailFails`).
* `CreateConversation` promises that a retry repairs missing grants. A retry by the
  participant who is not the owner is refused while it lacks its grant
  (`OnlyTheCreatorCanRepair`; exactly when a call succeeds is part of
  `CreateConversation`).
* After a `DeleteFileObject` that erased some versions, or all without its audit event, no
  retry can succeed (`PartialDeletionsNeverFinish`, `HalfDeletedFile`; exactly when a
  deletion succeeds is part of `DeleteFileObject`).
* A deleted file does not stay deleted: a call writes back the record it read before it took
  the mutex (`StaleVersionRevives`; exactly when: `UndeletedIffStaleWrite`). Its content
  stays erased, and no deletion of it succeeds any more (`DeletedOnceOnly`).
* GetFileContent checks read on the file only, and takes no mutex. A read that overlaps the
  granting of its own access can be refused by Storage (`ReadDuringChange`,
  `ReadOvertakesGrant`).
* MoveBlob promises that success means the blob is at the new policy. StoreBlob's rollback
  takes no lock, and a reference can be listed before StoreBlob answers, so a move that
  overlaps it can report success for a blob nobody can open (`MoveReportsALostBlob`,
  `MovesLandIffStored`, `AnsweredMovesLastIffStored`).
* Revoking the sessions of a device before revoking the device itself, or revoking all
  sessions, leaves a window (`SessionsFirstIsNotEnough`, `RevokeAllIsASnapshot`; exactly when
  either is final: `SessionsFirstSufficesIff`, `RevokeAllSufficesIff`).

## Model

| member | source | states |
|---|---|---|
| SessionStores.InMemoryNonceStore.Peek | services/api/internal/sessionauth/store.go:166-177 | a nonce is good only for its identity and device and while not past expiry; looking does not consume it |
| SessionStores.InMemoryNonceStore.ConsumeIfValid | services/api/internal/sessionauth/store.go:193-230 | says yes exactly for a good nonce and removes it; an expired one is removed too, one issued to somebody else stays |
| SessionStores.InMemorySessionStore.TouchLastUsed | services/api/internal/sessionauth/store.go:268-277 | touching changes a stored session only and never inserts one |
| SessionStores.InMemorySessionStore.PutIfDeviceGenerationUnchanged | services/api/internal/sessionauth/store.go:350-359 | the commit gate: the session is stored exactly when the device's generation is still the expected one |
| SessionStores.InMemorySessionStore.RevokeAllForDevice | services/api/internal/sessionauth/store.go:366-380 | exactly the device's sessions go and its generation moves by one; the count is theirs |
| SessionStores.InMemorySessionStore.DeleteAllForIdentity | services/api/internal/sessionauth/store.go:290-301 | exactly the identity's sessions go; no generation moves |
| SessionSafety.RunKeepsInv | services/api/internal/sessionauth/service.go:141-270 | the inductive invariant of the protocol holds in every reachable state |
| SessionTheorems.SessionsPostdateRevocations | services/api/internal/sessionauth/postgres_session_store.go:218-229 | every stored session was committed by a request that read its generation after the last completed revocation of the device, also when generation reads fail and give 0 |
| SessionTheorems.RemovedDeviceHasNoSession | services/api/internal/sessionauth/service.go:455-484 | once RevokeDevice and a later RevokeSessionsForDevice completed, the device has no session at any later time |
| SessionTheorems.OneSessionPerNonce | services/api/internal/sessionauth/service.go:155-254 | a nonce yields at most one session, for the identity and device it was issued to, from a request begun before expiry whose proof verified against the key resolved in that request |
| SessionTheorems.StoredHasOrigin | services/api/internal/sessionauth/service.go:226-254 | every stored session was committed by a recorded request, so the theorems about origins cover it |
| SessionTheorems.DeletedStaysDeleted | services/api/internal/sessionauth/service.go:303-319 | the two-step get and touch of ValidateSession never brings a deleted session back |
| SessionTheorems.SessionsFirstIsNotEnough | services/api/internal/sessionauth/service.go:169-254 | a run in which revoking sessions first and the device second leaves a live session |
| SessionTheorems.RevokeAllIsASnapshot | services/api/internal/sessionauth/service.go:399-423 | a run in which a request in flight commits a session after RevokeAllSessions answered |
| SessionRevocation.LaterSessionsAreNew | services/api/internal/sessionauth/service.go:399-423 | whatever follows a RevokeAllSessions, a stored session of the identity was committed after it |
| SessionRevocation.RevokeAllSufficesIff | services/api/internal/sessionauth/service.go:399-423 | if the identity starts nothing new, a session of it can appear after the call exactly when a request in flight at that moment is promising: capture current, nonce good or never given out, device bound to a fitting key or never bound |
| SessionRevocation.PromisesCanBeKept | services/api/internal/sessionauth/service.go:169-254 | a promising request has a continuation that stores its session |
| SessionRevocation.QuietRevokeAllSuffices | services/api/internal/sessionauth/service.go:399-423 | with no request of the identity between start and commit, the identity has no session at any later time |
| SessionRevocation.SessionsFirstSufficesIff | services/api/internal/sessionauth/service.go:169-254 | once a device is revoked it can have a session later exactly when one is stored or one of its requests is past the lookup with a current capture, a good nonce and a fitting proof |
| SessionAnswers.RevokedSessionIsGone | services/api/internal/sessionauth/service.go:342-378 | once RevokeSession has answered yes its token is in no stored session, then or at any later time of any run |
| SessionAnswers.ActPerforms | services/api/internal/sessionauth/service.go:303-484 | what each call that presents a token does to sessions and generations: exactly the sessions it names are touched or gone, only the named device's generation moves |
| SessionAnswers.LookUpDecides | services/api/internal/sessionauth/service.go:303-398 | a call goes on exactly with a stored session that it may use; looking changes nothing |
| SessionAnswers.UndisturbedCall | services/api/internal/sessionauth/service.go:303-484 | a call that nothing disturbs answers yes exactly when its token names a session it may use, and then has its effect |
| SessionAnswers.YesMeansIssued | services/api/internal/sessionauth/service.go:303-319 | over any run a yes of ValidateSession is for a session issued no more than thirty minutes before |
| SessionAnswers.StoredAsIssued | services/api/internal/sessionauth/service.go:226-246 | over any run a stored session is its request's: its device, its start, thirty minutes |
| SessionAnswers.UndisturbedIssue | services/api/internal/sessionauth/service.go:141-270 | an IssueSession that nothing disturbs answers the first reason against it and changes nothing, or uses up its nonce and stores its session |
| SessionAnswers.ChallengeGives | services/api/internal/sessionauth/service.go:110-135 | a challenge is for one device and two minutes |
| SessionAnswers.ConsumeRemoves | services/api/internal/sessionauth/store.go:193-230 | consuming removes the nonce exactly if it is too old or the device's own, and no other nonce |
| SessionAnswers.SessionMessageFields | services/api/internal/sessionauth/sign.go:28-40 | the signed message has four fields in their order |
| SessionAnswers.SessionsAreProven | services/api/internal/sessionauth/service.go:186-218 | over any run every session stems from a proof over its identity, device and nonce under the key that Identity bound to the device |
| SessionAnswers.FailedReadFailsClosed | services/api/internal/sessionauth/postgres_session_store.go:218-229 | a generation read that fails can only refuse: once the device's sessions were ever revoked, such a request commits nothing |
| Scopes.ScopePreorder | services/api/internal/permissions/scope.go:34-41 | the scope comparison is reflexive and transitive on all strings, ranked or not |
| Scopes.ScopesAreOrdered | services/api/internal/permissions/scope.go:13-41 | read, write, full, owner, in any letter case: each covers itself and those before it |
| Scopes.EmptyMeansFull | services/api/internal/permissions/scope.go:20-32 | an empty scope counts as full |
| Scopes.UnknownScopesStandAlone | services/api/internal/permissions/scope.go:34-41 | any other scope covers exactly itself, up to letter case |
| Scopes.ScopeAtLeastIsCovers | services/api/internal/permissions/scope.go:34-41 | the comparison by rank is the order of the list |
| Permissions.InMemoryStore.Put | services/api/internal/permissions/store.go:89-96 | a grant replaces its key's grant; the first grant on a resource makes its grantor the owner |
| Permissions.InMemoryStore.GrantsForResource | services/api/internal/permissions/store.go:123-133 | exactly the active grants of the resource are listed, each once |
| Permissions.Service.CheckPermission | services/api/internal/permissions/service.go:51-74 | deny by default: a policy must exist, and the subject is the owner or holds an active grant |
| Permissions.Service.GrantPermission | services/api/internal/permissions/service.go:99-162 | what a grant changes, when it is refused, and that a refused audit event leaves it in effect |
| Permissions.Service.RevokePermission | services/api/internal/permissions/service.go:183-238 | what a revoke changes, who may revoke, and that a refused audit event leaves it in effect |
| PermissionRules.AuthorityByOrder | services/api/internal/permissions/service.go:83-96 | a grant is allowed exactly to the owner, to anybody on an unowned resource, and to a holder whose scope stands at or after the requested one |
| PermissionRules.GrantRule | services/api/internal/permissions/service.go:99-162 | what a grant call changes, key by key, and the entry it records |
| PermissionRules.RevokeRule | services/api/internal/permissions/service.go:183-238 | owner, grantor and subject may revoke; the grant goes and nothing else; the entry with the reason of a refusal |
| PermissionRules.CheckRule | services/api/internal/permissions/service.go:51-74 | denied by default: a registered type, and ownership or a grant of one's own |
| PermissionRules.PolicyRule | services/api/internal/permissions/service.go:248-262 | a policy is registered for good and changes nothing else |
| PermissionsHistory.HistoryExplainsEveryRun | services/api/internal/permissions/service.go:99-238 | after any run the active grants and owners are what replaying the allowed history entries gives |
| PermissionsHistory.AccessReadsOffHistory | services/api/internal/permissions/service.go:51-74 | access can be read off the history: the first allowed grantor, or the latest allowed entry for the key is a grant |
| PermissionsHistory.OwnerIsPermanent | services/api/internal/permissions/store.go:89-96 | once set, an owner never changes |
| PermissionsHistory.NewGrantTraced | services/api/internal/permissions/service.go:83-96 | an allowed grant starts at the owner or extends the grantor's own delegation path |
| PermissionsHistory.GrantsComeFromTheOwner | services/api/internal/permissions/service.go:83-161 | a grant by anyone else is preceded by the owner's grant for the same action and resource with at least its scope |
| PermissionEffects.GrantEffect | services/api/internal/permissions/service.go:99-162 | a grant touches one key; ownership appears on its resource at most |
| PermissionEffects.RevokeEffect | services/api/internal/permissions/service.go:183-238 | a revoke touches one key and no owner; the owner's revoke always takes |
| FileObjects.ReadersReachEveryVersion | services/api/internal/fileobjects/service.go:414-485 | for a pair in step, reading the file and retrieving each version's blob stand or fall together; the owner reads |
| FileObjects.ConsistentAfterVersion | services/api/internal/fileobjects/service.go:414-485 | a new version whose blob belongs to the file's owner and repeats its read grants keeps the mirror |
| FileObjects.ConsistentAfterChange | services/api/internal/fileobjects/service.go:587-638 | changing one subject's grants can put only that pair out of step |
| FileObjects.BootstrapIsInvisible | services/api/internal/fileobjects/service.go:293-330 | no call of a creation, which runs outside the mutex on ids nobody uses yet, disturbs any mirror or its own standing |
| FileObjects.SectionKeepsPending | services/api/internal/fileobjects/service.go:293-330 | a section on a recorded file or a new blob leaves every creation under way what it needs to finish |
| FileObjects.CreateEndsInStep | services/api/internal/fileobjects/service.go:285-378 | however its calls interleaved with other sections, a created file is in step from the start |
| FileObjects.BlobStore.StoreBlob | services/api/internal/storage/service.go:191 | a stored blob is owned by the owner it was stored for, who holds retrieve on it |
| FileObjects.BlobStore.DeleteBlob | services/api/internal/storage/service.go:418-492 | without failing calls a delete succeeds exactly when Storage's check passes and the blob is stored and not deleted; a refused audit event reports failure for a blob that is gone |
| FileService.FileObjectsService.CreateStore | services/api/internal/fileobjects/service.go:285-309 | the first step of a creation, at any moment: ids taken, blob stored and owned, mirror and other creations as before |
| FileService.FileObjectsService.CreateGrant | services/api/internal/fileobjects/service.go:319-333 | each of the owner's grants, at any moment: full scope, nothing else touched, the creation stays under way and the mirror holds; it fails only when a call fails |
| FileService.FileObjectsService.CreateUndo | services/api/internal/fileobjects/service.go:298-332 | the rollback, if it meets no failure itself, erases the blob and takes back every grant made so far |
| FileService.FileObjectsService.CreateRecord | services/api/internal/fileobjects/service.go:335-378 | the last step, at any moment: the file is recorded in step, or nothing is |
| FileService.FileObjectsService.CreateFileObject | services/api/internal/fileobjects/service.go:285-378 | its steps in order, with the rollback of each: keeps the mirror; a success leaves the owner with read, write and retrieve; a failure leaves no record and means that a call failed |
| FileService.FileObjectsService.BeginWrite | services/api/internal/fileobjects/service.go:398-411 | who may write and which record the later section works on |
| FileService.FileObjectsService.CreateVersion | services/api/internal/fileobjects/service.go:413-485 | keeps the mirror; the blob belongs to the file's owner whoever calls; the version is recorded exactly when the answer is success, a refused audit event, or missed readers, who are exactly those named; writes back only a record read undeleted; without failures it succeeds on every such record; touches grants on its new blob only |
| FileService.FileObjectsService.SetFilePermissions | services/api/internal/fileobjects/service.go:584-638 | a change is made only if Permissions lets the requester make it, and without failures exactly then; unauthorized it touches nothing; keeps the mirror; a read change that succeeds puts its subject in step on all versions whatever failed before; versions not named as missed are mirrored; writes back the record it read exactly when it succeeds or only missed versions |
| FileService.OutsidersCannotGrant | services/api/internal/fileobjects/service.go:587-600 | who does not own the file and holds nothing on it can grant nobody anything on it, nor revoke what it did not grant |
| FileService.FileObjectsService.BeginMetadata | services/api/internal/fileobjects/service.go:664-679 | who may change metadata, and which record is read, deleted or not |
| FileService.FileObjectsService.SetFileMetadata | services/api/internal/fileobjects/service.go:681-701 | writes the record it read with the new name, without the mutex, exactly when its audit event is accepted |
| FileService.FileObjectsService.DeleteFileObject | services/api/internal/fileobjects/service.go:784-838 | success means all content erased and no version erased before; a failure names the versions whose content is not gone; without failing calls it succeeds exactly when the record is undeleted and no version's content is gone, and then no grant on the file is left |
| FileHistory.PartialDeletionsNeverFinish | services/api/internal/fileobjects/service.go:790-800 | once a version's content is gone, whatever calls follow, no deletion of the file succeeds |
| FileHistory.UndeletedIffStaleWrite | services/api/internal/fileobjects/service.go:832-835 | after a deletion, in any later state the file is undeleted exactly when the last call that wrote its record had read it while it was undeleted |
| FileHistory.FreshReadersLeaveItDeleted | services/api/internal/fileobjects/service.go:832-835 | it stays deleted if every later writer has read the record since |
| FileHistory.StaleVersionRevives | services/api/internal/fileobjects/service.go:405-478 | the run: a CreateVersion reads, a DeleteFileObject succeeds, the CreateVersion writes, the file is undeleted |
| FileHistory.DeletedOnceOnly | services/api/internal/fileobjects/service.go:790-800 | a file that was deleted once, and perhaps revived, is never deleted again |
| FileHistory.HalfDeletedFile | services/api/internal/fileobjects/service.go:790-800 | a file in step, not deleted, one of two versions erased, its owner still allowed to write |
| FileService.FileObjectsService.GetFileContent | services/api/internal/fileobjects/service.go:493-519 | the steps of a read with nothing in between: on a pair in step whoever may read the file gets every version that exists and is not erased |
| FileService.FileObjectsService.FindContent | services/api/internal/fileobjects/service.go:497-510 | the second step of a read: the first version with the reference asked for, the current one if none is named, or which of the two is missing |
| FileService.NewVersionIsCurrent | services/api/internal/fileobjects/service.go:446-478 | once CreateVersion has recorded its version, that one is read by default and the older ones by name as before |
| FileService.FileObjectsService.CheckRead | services/api/internal/fileobjects/service.go:93-110 | the first step of a read, at any moment: exactly who passes |
| FileService.FileObjectsService.Retrieve | services/api/internal/fileobjects/service.go:511-518 | the last step of a read, at any moment: the blob's grants, record and tombstone decide alone; with no section on the file and the pair in step that is the read permission of this moment |
| FileService.ReadDuringChange | services/api/internal/fileobjects/service.go:587-612 | a retrieve while a read grant is being changed is answered by the new grant on the versions already mirrored and by the old grant on the others |
| FileService.ReadOvertakesGrant | services/api/internal/fileobjects/service.go:587-612 | a state in which the check on the file passes and the check on the blob does not, no call having failed |
| StorageSafety.StepKeeps | services/api/internal/storage/service.go:122-493 | every step of every request keeps the invariant of the blob |
| StorageSafety.RunKeeps | services/api/internal/storage/service.go:122-493 | the invariant of every blob holds in every reachable state of the service |
| StorageTheorems.StoredBlobsAreWhole | services/api/internal/storage/service.go:149-230 | a stored, undeleted blob at rest is in the backend its record names, opens to the original bytes, and is nowhere else unless a double failure was reported |
| StorageTheorems.MovesLandWhereAsked | services/api/internal/storage/service.go:332-399 | unless StoreBlob is taking the blob back, a move that takes effect leaves it, whole, at the policy asked for |
| StorageTheorems.MovesLandIffStored | services/api/internal/storage/service.go:191-227 | once StoreBlob has answered, a move that took effect delivered the blob exactly when StoreBlob succeeded |
| StorageTheorems.AnsweredMovesLastIffStored | services/api/internal/storage/service.go:191-227 | the same for a move that had already answered, as long as no other move or delete has come as far as the lock |
| StorageTheorems.MoveReportsALostBlob | services/api/internal/storage/service.go:220-226 | a run in which a move overlaps the rollback of StoreBlob and reports success for a blob nobody can open |
| StorageTheorems.FailedStoresStayShut | services/api/internal/storage/service.go:220-226 | a blob whose StoreBlob failed never opens, wherever a copy is left |
| StorageTheorems.DuplicatesAreReported | services/api/internal/storage/service.go:375-385 | a blob at rest in more than one backend means that a move reported the double failure |
| StorageTheorems.ReadsAnswerTheOriginal | services/api/internal/storage/service.go:244-293 | a retrieve, which takes no lock, answers the original bytes or nothing |
| StorageTheorems.OriginIsWhatWasStored | services/api/internal/storage/service.go:140-149 | the original bytes are those StoreBlob was called with |
| StorageTheorems.OneDeleteTakesEffect | services/api/internal/storage/service.go:440-482 | of any concurrent deletes of a blob at most one takes effect |
| StorageTheorems.DeletedBlobsStayShut | services/api/internal/storage/store.go:145-155 | after a delete the wrapping key is gone, so no surviving copy opens; the tombstone stays unless StoreBlob takes the blob back |
| StorageTheorems.NothingReadAfterDelete | services/api/internal/storage/service.go:244-293 | a retrieve begun after a delete took effect never answers data, even if a duplicate copy survives |
| StorageErasure.TombstonesAreHonest | services/api/internal/storage/service.go:440-482 | over any run a tombstone names its policy's way of deleting, and under a physical-delete policy no copy is left there |
| StorageAlone.StoreAlone | services/api/internal/storage/service.go:122-242 | a StoreBlob that runs alone, whichever of its calls fail: success exactly when write, grant and audit event succeed, and the blob it leaves |
| StorageAlone.MoveAlone | services/api/internal/storage/service.go:304-411 | a MoveBlob that runs alone, whichever of its calls fail: its answer and the blob it leaves |
| StorageAlone.DeleteAlone | services/api/internal/storage/service.go:413-493 | a DeleteBlob that runs alone, whichever of its calls fail: its answer, the copies, the key and the tombstone it leaves |
| StorageAlone.ReadAlone | services/api/internal/storage/service.go:244-302 | a RetrieveBlob that runs alone, whichever of its calls fail: its answer; it changes nothing |
| StorageAtRest.UndisturbedStore | services/api/internal/storage/service.go:122-242 | a store that runs alone without failures succeeds with the blob whole at the policy asked for |
| StorageAtRest.UndisturbedMove | services/api/internal/storage/service.go:304-411 | a permitted move of a stored blob that runs alone without failures lands exactly if no delete took effect: whole at the new policy, gone from the old one |
| StorageAtRest.UndisturbedRead | services/api/internal/storage/service.go:244-293 | a permitted read that runs alone without failures answers the stored bytes if StoreBlob returned the blob and no delete took effect, and nothing otherwise |
| StorageAtRest.UndisturbedDelete | services/api/internal/storage/service.go:413-493 | a permitted delete of a stored blob that runs alone without failures takes effect exactly when none has before; then the record's policy holds no copy, the key is gone, and the tombstone names the policy's way of deleting |
| StorageAtRest.BlobStoreIsStorageAtRest | services/api/internal/storage/service.go:244-492 | the two sets by which File Objects sees Storage answer as the step machine does for requests that run alone |
| Conversations.PairsAreUnordered | services/api/internal/conversations/service.go:73-78 | two pairs have the same canonical form exactly when they are the same two people |
| Conversations.LexLeIsBytewise | services/api/internal/conversations/service.go:73-78 | the order of a pair is the order of strings: a prefix first, else the first difference decides |
| ConversationStore.DeletedLeavesNothing | services/api/internal/conversations/store.go:125-135 | a deleted conversation leaves no row, index entry or message, and the others keep theirs |
| ConversationStore.InMemoryStore.FindOrCreateConversation | services/api/internal/conversations/store.go:105-116 | the pair's existing row, or the candidate inserted; the index stays exact |
| ConversationStore.InMemoryStore.DeleteConversationRecord | services/api/internal/conversations/store.go:125-135 | the row, its index entry and its messages go, and nothing else |
| ConversationStore.InMemoryStore.AddMessage | services/api/internal/conversations/store.go:137-143 | the message is appended to its conversation with the next number |
| ConversationStore.InMemoryStore.MessageNumber | services/api/internal/conversations/store.go:145-154 | the number of the first message with the id, if there is one |
| ConversationStore.InMemoryStore.ListMessages | services/api/internal/conversations/store.go:159-183 | the newest `limit` eligible messages, oldest first, and whether there are older ones |
| Conversations.Service.Bootstrap | services/api/internal/conversations/service.go:223-249 | after a new row: both grants or no row; a crash leaves what was done; without failures it succeeds |
| Conversations.Service.RepairMissingBootstrapGrants | services/api/internal/conversations/service.go:287-336 | without failures the repair succeeds exactly when the row's owner is unset or the caller, or the caller already has access; nothing changes when both have access |
| Conversations.Service.CreateConversation | services/api/internal/conversations/service.go:199-250 | what one call does to rows and access, crashes and failures included, and exactly when it succeeds without them |
| Conversations.CallCreates | services/api/internal/conversations/service.go:199-250 | a row found or inserted and grants on it keep every other row, id and access |
| Conversations.NobodyElse | services/api/internal/conversations/service.go:229-236 | only the two participants can access a conversation |
| Conversations.ConversationsAreOnePerPair | services/api/internal/conversations/service.go:199-336 | over any sequence of calls, successes for the same two people give the same id and for others another; both keep access and nobody else gets it |
| Conversations.OnlyTheCreatorCanRepair | services/api/internal/conversations/service.go:287-336 | after a crash between the two grants the creator's retry can succeed and the participant's cannot |
| Conversations.Service.SendMessage | services/api/internal/conversations/service.go:353-391 | only a participant's message is appended, also when its audit event is refused; every other outcome leaves all logs alone |
| Conversations.Service.ListMessages | services/api/internal/conversations/service.go:408-440 | a participant gets the page of the log that the cursor and the clamped limit select |
| MessagePages.AddingExtends | services/api/internal/conversations/store.go:137-143 | logs only grow at the end and stay in order |
| MessagePages.PageIsStretch | services/api/internal/conversations/store.go:159-183 | a page is the stretch of the log that ends at the cursor |
| MessagePages.PageSizes | services/api/internal/conversations/service.go:15-20 | 50 messages by default, at most 200, otherwise as asked |
| MessagePages.WalkReadsEverythingOnce | services/api/internal/conversations/service.go:408-440 | walking back from the newest page ends and reads every message present at the start once, in order, whatever arrives meanwhile |
| MessagePages.PostgresListMessages | services/api/internal/conversations/postgres_store.go:162-212 | the trimmed and reversed rows are the in-memory page and flag, for any rows the query may answer |
| MessagePages.AllRowsForced | services/api/internal/conversations/postgres_store.go:174-184 | the descending query with its limit has one possible answer |
| AuditChain.VerifyIntegrity | services/api/internal/audit/store.go:122-135 | accepts exactly the chains, and otherwise names the first broken link |
| AuditChain.SameIdSamePlace | services/api/internal/audit/hash.go:33-53 | all event ids of a chain are distinct |
| AuditChain.DrawnListsPassIffPrefix | services/api/internal/audit/store.go:122-135 | a list drawn from a chain's events passes exactly when it is a prefix of the chain |
| AuditChain.EditsAreNoticed | services/api/internal/audit/store.go:122-135 | changing any event but the last breaks verification unless nothing changed |
| AuditChain.InMemoryStore.Append | services/api/internal/audit/store.go:51-62 | the event is linked at the end and the store stays a chain with an exact index |
| AuditChain.InMemoryStore.Get | services/api/internal/audit/store.go:64-69 | the id index answers as scanning the log does |
| AuditExport.Service.Emit | services/api/internal/audit/service.go:77-97 | exactly what is refused and why, and that anything else is linked at the end of the log with the fields given |
| AuditExport.Service.QueryStore | services/api/internal/audit/store.go:71-104 | exactly the events that pass the six filters, newest first, log order within a second |
| AuditExport.Service.Query | services/api/internal/audit/service.go:113-133 | one's own trail always, another's only with permission |
| AuditExport.Service.ExportAuditTrail | services/api/internal/audit/service.go:162-189 | the stable time-ascending trail of the subject, or why not |
| AuditExport.SortIsStable | services/api/internal/audit/export.go:83-87 | the sort orders by time, keeps the events and their order within a second |
| AuditExport.StableSortIsUnique | services/api/internal/audit/export.go:83-87 | any stable sort gives the same list |
| AuditExport.SortingBack | services/api/internal/audit/service.go:178-186 | newest first and then oldest first is oldest first |
| AuditExport.TrailPassesIffPrefix | services/api/internal/audit/export.go:49-54 | an exported trail is exactly the subject's events in order, and passes its own note's check exactly when those events come first in the log, in order of time, with none later |
| AuditExport.SecondActorsTrailFails | services/api/internal/audit/export.go:49-54 | in every two-event log of two people the second one's trail fails that check |
| AsyncLock.LockMap.Enter | apps/mobile/src/capabilities/crypto/keyRegistry.ts:170-182 | a call waits for the promise it found and publishes its own |
| AsyncLock.LockMap.Leave | apps/mobile/src/capabilities/crypto/keyRegistry.ts:185-190 | the slot is cleared only by the last call in line |
| AsyncLock.SameStepsEnabled | apps/mobile/src/capabilities/crypto/keyRegistry.ts:169-192 | a call can start or end exactly when the first-come-first-served line lets it |
| AsyncLock.ChainIsFifo | apps/mobile/src/capabilities/crypto/keyRegistry.ts:169-192 | the promise chain and the line have the same runs, whichever bodies throw |
| AsyncLock.LocksAreSafeAndLive | apps/mobile/src/capabilities/crypto/prekeyStore.ts:131-152 | at most one body per key, a slot exactly while somebody holds or waits, and somebody can always move |
| GuardedStore.RunKeeps | apps/mobile/src/capabilities/crypto/index.ts:654-696 | the invariant of guarded storage holds in every reachable state |
| RatchetAndPrekeys.CallsAreSerial | apps/mobile/src/capabilities/crypto/index.ts:654-696 | stored values are what the landed calls give one after the other; a call that returned answered from exactly what those before it left |
| RatchetAndPrekeys.CallsLandInOrder | apps/mobile/src/capabilities/crypto/keyRegistry.ts:142-152 | calls of a key land in order of arrival, once each, and never if they threw before the write |
| RatchetAndPrekeys.UndisturbedCall | apps/mobile/src/capabilities/crypto/index.ts:654-696 | a call that nothing disturbs returns what its body computes from the stored value and leaves the value its body gives |
| RatchetAndPrekeys.PrekeysAreUsedOnce | apps/mobile/src/capabilities/crypto/prekeyStore.ts:168-180 | a one-time prekey is returned to at most one caller, as it was stored, and is gone afterwards |
| RatchetAndPrekeys.PrekeysCanBeUsed | apps/mobile/src/capabilities/crypto/prekeyStore.ts:168-180 | a prekey that is there and that nobody else asks for is returned and gone |
| RatchetMessages.HandshakePairs | apps/mobile/src/capabilities/crypto/ratchet.ts:197-297 | the two halves of the handshake give paired sessions, each side's sending chain being the other's receiving chain |
| RatchetMessages.SecretsAndChainsDiffer | apps/mobile/src/capabilities/crypto/ratchet.ts:168-172 | the two kinds of shared secret never coincide, nor do the two directions of a session |
| RatchetMessages.EncryptSucceedsIff | apps/mobile/src/capabilities/crypto/index.ts:654-676 | encrypting succeeds with any nonce of its size until the number outgrows four bytes |
| RatchetMessages.SentIsSealed | apps/mobile/src/capabilities/crypto/index.ts:654-676 | the n-th message of a session carries number n and is sealed under the n-th key of its sending chain |
| RatchetMessages.ReceivedIsOpened | apps/mobile/src/capabilities/crypto/index.ts:678-696 | the n-th message that a session decrypted was opened with the n-th key of its receiving chain |
| RatchetMessages.AnswersAreMessages | apps/mobile/src/capabilities/crypto/index.ts:654-696 | over any run a call that returned is the next message of its session at its turn, and what is stored is the session after all of them |
| RatchetMessages.ReadsAreAPrefix | apps/mobile/src/capabilities/crypto/index.ts:678-696 | whatever the relay drops, repeats or reorders, the other side's messages are decrypted in the order of sending, without a gap or a repetition, to what was sent |
| RatchetMessages.NextIsReadAndNoOther | apps/mobile/src/capabilities/crypto/index.ts:678-696 | of the messages sent exactly the next one is decrypted; any other throws and leaves the session as it was |
| RatchetMessages.NoEnvelopeTwice | apps/mobile/src/capabilities/crypto/index.ts:678-696 | over any run no two calls of a session decrypt the same envelope |
| RatchetMessages.NoMessageKeyTwice | apps/mobile/src/capabilities/crypto/ratchet.ts:313-357 | no key opens two of the messages that the two sides of a session have encrypted |
| Base64.BytesToBase64 | apps/mobile/src/capabilities/crypto/bytes.ts:31-52 | the output is the encoding of section 4 of RFC 4648, given by bits |
| Base64.TestVectors | apps/mobile/src/capabilities/crypto/bytes.ts:31-52 | the test vectors of section 10 of RFC 4648 |
| Base64.Alphabet | apps/mobile/src/capabilities/crypto/bytes.ts:6 | the alphabet in its order |
| Base64.Base64ToBytes | apps/mobile/src/capabilities/crypto/bytes.ts:54-73 | the output is the whole bytes in the bits of the alphabet characters, although the accumulator wraps at 32 bits |
| Base64.BufferStep | apps/mobile/src/capabilities/crypto/bytes.ts:65 | the wrap-around of the accumulator never reaches the bits that are used |
| Base64.RoundTrip | apps/mobile/src/capabilities/crypto/bytes.ts:31-73 | decoding undoes encoding for every byte string |
| Base64.ForeignIsSkipped | apps/mobile/src/capabilities/crypto/bytes.ts:54-73 | padding at the end and characters outside the alphabet make no difference to decoding |
| MessageEnvelope.DecodeMessageEnvelope | apps/mobile/src/capabilities/crypto/messageEnvelope.ts:52-73 | the moving offset reads the fields of the layout |
| MessageEnvelope.DecodeUndoesEncode | apps/mobile/src/capabilities/crypto/messageEnvelope.ts:34-73 | what can be encoded is decoded back |
| MessageEnvelope.EncodeUndoesDecode | apps/mobile/src/capabilities/crypto/messageEnvelope.ts:34-73 | exactly inputs of 29 bytes or more with the version are accepted, and encoding gives them back |
| MessageEnvelope.EnvelopeBytes | apps/mobile/src/capabilities/crypto/messageEnvelope.ts:34-44 | exactly what can be encoded, and which byte is what |
| SessionPayload.DecodeSessionEstablishmentPayload | apps/mobile/src/capabilities/conversations/sessionPayload.ts:86-122 | the moving offset reads what the layout says, or fails |
| SessionPayload.DecoderAcceptsLayouts | apps/mobile/src/capabilities/conversations/sessionPayload.ts:86-122 | exactly which inputs are accepted and as which payload |
| SessionPayload.DecodeUndoesEncode | apps/mobile/src/capabilities/conversations/sessionPayload.ts:60-122 | what can be encoded is decoded back |
| SessionPayload.ReencodesIff | apps/mobile/src/capabilities/conversations/sessionPayload.ts:60-122 | encoding a decoded input gives it back exactly when nothing trailed and no other flag was set |
| SealedEnvelope.DecryptEnvelope | apps/mobile/src/capabilities/crypto/envelope.ts:78-120 | the block scan with its moving offset computes the reader's function |
| SealedEnvelope.WrittenBlock | apps/mobile/src/capabilities/crypto/envelope.ts:64-76 | the reader's i-th block is what the writer wrote for the i-th recipient |
| SealedEnvelope.WriterAccepts | apps/mobile/src/capabilities/crypto/envelope.ts:48-60 | one to 255 recipients with keys of 32 bytes, and which refusal comes first |
| SealedEnvelope.EnvelopeBytes | apps/mobile/src/capabilities/crypto/envelope.ts:62-76 | which bytes are what, recipients' blocks apart |
| SealedEnvelope.BlockBytes | apps/mobile/src/capabilities/crypto/envelope.ts:64-72 | which bytes of a recipient's block are what |
| SealedEnvelope.Malformed | apps/mobile/src/capabilities/crypto/envelope.ts:78-98 | exactly which inputs are too short, of another version, or cut off |
| SealedEnvelope.OnlyRecipientsRead | apps/mobile/src/capabilities/crypto/envelope.ts:48-120 | for 1 to 255 recipients every recipient reads the plaintext and anyone else is told it is no recipient |
| SealedEnvelope.BorrowedKeyFails | apps/mobile/src/capabilities/crypto/envelope.ts:100-112 | naming a recipient's public key without its private key ends in a failed tag |
| IdentityBinding.MessageIsInjective | services/api/internal/identity/sign.go:71-83 | the signed message determines reference, key, name and epoch, also when the name contains NUL |
| IdentityBinding.MessageFields | services/api/internal/identity/sign.go:71-83 | the signed message has five fields in their order |
| IdentityBinding.Service.AuthorizesBinding | services/api/internal/identity/sign.go:118-130 | a proof counts if it verifies under the root key or some bound device's key at the current epoch |
| IdentityBinding.Service.BindDevice | services/api/internal/identity/service.go:114-185 | the order of refusals, the device added, the epoch moved, and the epoch answered |
| IdentityBinding.Service.RevokeDevice | services/api/internal/identity/service.go:188-237 | the first device with the id goes, the others stay in order, the epoch moves |
| IdentityBinding.ProofsWorkOnce | services/api/internal/identity/service.go:114-237 | over any run of creations, binds and revokes no proof is accepted twice, by any identity |
| IdentityBinding.BindAcceptedIffSigned | services/api/internal/identity/service.go:114-185 | a bind is accepted exactly when it is well-formed and signed, at the current epoch, by the root key or by the key of a device bound at that moment |
| IdentityBinding.BindsAreAuthorized | services/api/internal/identity/sign.go:118-130 | over any run the signer of an accepted bind is the root key given at the creation, or the key of a device that came in by the creation or an accepted bind and has not been revoked since |
| IdentityBinding.RevokeAcceptedIff | services/api/internal/identity/service.go:188-237 | a revocation is accepted exactly when the identity has the device; the first one with the id goes and the epoch moves |
| IdentityBinding.OldProofsFail | services/api/internal/identity/sign.go:71-83 | binding or revoking any device makes every proof signed before useless for good |

## Left out

- HTTP handlers, authentication middleware, JSON shapes, mobile screens and clients: no logic of their own.
- Postgres, Redis and S3 themselves: a row lock is one atomic step; timeouts, pool exhaustion and failed queries are not modelled, except the generation read that folds to 0.
- Real cryptography: Ed25519, X25519, HKDF, XChaCha20-Poly1305 and SHA-256 are parameters; of ratchet.ts the DH ratchet step, which nothing calls, is left out, and so are the checks of a prekey bundle's signatures.
- Key separators: map keys are tuples, so ids containing 0x1f or NUL cannot collide here.
- Integer width: generations, epochs, sequence numbers and times are unbounded integers; the 32-bit arithmetic of base64 and the uint32 of the message envelope are modelled.
- Strings: bytes and characters coincide; lower-casing of scopes is ASCII only; JSON text and invalid UTF-8 are not modelled.
- Generated ids, tokens, nonces and conversation ids are assumed fresh, and the configured storage policies to have distinct backends.
- Identity's Get and Replace are one step, and so are the authorisation and the write of one Permissions call; two racing first grants are not modelled.
- File Objects metadata other than the name, history events, listings and ExportFile, and the audit events of Storage and File Objects beyond their success or failure: only easy members.
- FileService.FileObjectsService.GetFileContent: has nothing between its steps; CheckRead, FindContent and Retrieve are the steps at any moment, and ReadDuringChange is a retrieve inside a section. It names the content by its blob; that a retrieve answers the stored bytes is proved in StorageAtRest.
- A write of SetFileMetadata that falls inside a section on the file is placed before that section, which writes the record once, at its end.
- StoreBlob's argument checks and its random key are arguments of the model. Requests on a generated reference whose permission is checked before the owner's grant are denied and change nothing, so the machine leaves them out.
- A backend call that fails is assumed to have had no effect; partial writes inside a backend are not modelled.
- CreateConversation runs one call at a time; a rollback racing a concurrent idempotent hit is not modelled, because the hit may then name a deleted row.
- Conversations other than creating, sending and listing messages; ListConversations and exports are projections.
- AuditChain.DrawnListsPassIffPrefix: assumes a hash without collisions; shared mutable metadata maps are not modelled, and neither is the order of ties in the Postgres query.
- RatchetMessages.ReadsAreAPrefix: assumes that the envelopes a session decrypts came from the other side, that a ciphertext opens under its own key only, and that the keys of a chain are distinct.
- FileService.FileObjectsService.CreateUndo: states what the rollback leaves when it meets no failure of its own; how far it got otherwise is not stated.
- IdentityBinding.ProofsWorkOnce: assumes that a signature verifies for one message only; the prekey pool and display data of identities are left out.
- The prekey pool of the identity service, the anomaly counter of sessions, listings and exports of sessions, and plain-language explanations: only easy members.
