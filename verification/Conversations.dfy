/**
 CreateConversation: one conversation per unordered pair, with grants that a
 retry repairs.

 A call may crash between any two of its steps, and any call to Permissions or
 to the audit trail may fail, before or after it took effect.
 */
module Conversations {
  import opened Bytes
  import opened Wrappers
  import opened ConversationStore
  import opened MessagePages
  import opened PermissionEffects
  import P = Permissions

  const RESOURCE_TYPE := "conversation"
  const ACCESS := "conversations.access"
  const FULL_SCOPE := "full"

  function RefOf(id: string): P.ResourceRef {
    P.ResourceRef(RESOURCE_TYPE, id)
  }

  function AccessKey(subject: string, id: string): P.GrantKey {
    P.GrantKey(subject, ACCESS, RefOf(id))
  }

  // ----- The canonical order of a pair -----

  /** The byte-wise order of strings. */
  predicate LexLe(a: string, b: string) {
    a == "" || (b != "" && (a[0] < b[0] || (a[0] == b[0] && LexLe(a[1..], b[1..]))))
  }

  lemma {:induction false} LexLeTotal(a: string, b: string)
    ensures LexLe(a, b) || LexLe(b, a)
  {
    if a != "" && b != "" {
      LexLeTotal(a[1..], b[1..]);
    }
  }

  lemma {:induction false} LexLeAntisymmetric(a: string, b: string)
    requires LexLe(a, b) && LexLe(b, a)
    ensures a == b
  {
    if a != "" {
      LexLeAntisymmetric(a[1..], b[1..]);
      assert a == [a[0]] + a[1..] && b == [b[0]] + b[1..];
    }
  }

  /** That is: a prefix comes first, and otherwise the first difference decides. */
  lemma {:induction false} LexLeIsBytewise(a: string, b: string)
    ensures LexLe(a, b) <==> a <= b || exists k: nat :: k < |a| && k < |b| && a[..k] == b[..k] && a[k] < b[k]
  {
    if a != "" && b != "" {
      LexLeIsBytewise(a[1..], b[1..]);
      if a[0] == b[0] {
        assert a <= b <==> a[1..] <= b[1..];
        forall k: nat | k < |a| && k < |b| && a[..k] == b[..k] && a[k] < b[k] ensures LexLe(a, b) {
          assert a[1..][..k - 1] == a[..k][1..] && b[1..][..k - 1] == b[..k][1..];
          assert a[1..][k - 1] == a[k] && b[1..][k - 1] == b[k];
        }
        forall k: nat | k < |a[1..]| && k < |b[1..]| && a[1..][..k] == b[1..][..k] && a[1..][k] < b[1..][k]
          ensures a[..k + 1] == b[..k + 1] && a[k + 1] < b[k + 1]
        {
          assert a[..k + 1] == [a[0]] + a[1..][..k] && b[..k + 1] == [b[0]] + b[1..][..k];
        }
      } else {
        assert a[..0] == b[..0];
        assert forall k: nat :: k > 0 && k < |a| && k < |b| && a[..k] == b[..k] ==> a[..k][0] == b[..k][0];
      }
    }
  }

  function CanonicalPair(a: string, b: string): Pair {
    if LexLe(a, b) then (a, b) else (b, a)
  }

  /** The canonical pair stands for the unordered pair: same pair, same key, and no other. */
  lemma PairsAreUnordered(a: string, b: string, c: string, d: string)
    ensures CanonicalPair(a, b) == CanonicalPair(c, d) <==> {a, b} == {c, d}
    ensures LexLe(CanonicalPair(a, b).0, CanonicalPair(a, b).1)
  {
    LexLeTotal(a, b);
    if LexLe(a, b) && LexLe(b, a) {
      LexLeAntisymmetric(a, b);
    }
    assert {a, b} == {c, d} ==> (a == c && b == d) || (a == d && b == c) by {
      if {a, b} == {c, d} {
        assert a in {c, d} && b in {c, d} && c in {a, b} && d in {a, b};
      }
    }
    assert {a, b} == {b, a};
  }

  // ----- What holds between calls -----

  datatype Snapshot = Snapshot(store: Contents, perms: P.State)

  /** A conversation's grants and owner belong to its two participants. */
  ghost predicate Governed(p: P.State, c: Conversation) {
    && c.lo != "" && c.hi != "" && c.lo != c.hi && c.conversationId != ""
    && (RefOf(c.conversationId) in p.owners ==> p.owners[RefOf(c.conversationId)] in {c.lo, c.hi})
    && (forall key :: key in p.active && key.resource == RefOf(c.conversationId) ==> key.subject in {c.lo, c.hi})
  }

  ghost predicate Inv(s: Snapshot) {
    && Indexed(s.store) && GrantsHaveOwners(s.perms) && RESOURCE_TYPE in s.perms.policies
    && (forall id :: id in s.store.conversations ==> Governed(s.perms, s.store.conversations[id]))
    && (forall p :: p in s.store.pairIndex ==> p == CanonicalPair(p.0, p.1))
  }

  predicate MayAccess(s: Snapshot, subject: string, id: string) {
    P.Check(s.perms, subject, ACCESS, RefOf(id)) == Ok(true)
  }

  /** The pair has no row yet, or its row's owner is not the other participant, or the caller already has its grant. */
  predicate Servable(s: Snapshot, creator: string, participant: string) {
    var pair := CanonicalPair(creator, participant);
    pair in s.store.pairIndex ==>
      var id := s.store.pairIndex[pair];
      RefOf(id) !in s.perms.owners || s.perms.owners[RefOf(id)] == creator || AccessKey(creator, id) in s.perms.active
  }

  datatype Failure = InvalidArgument | CheckFailed | Denied | GrantFailed | AuditFailed

  datatype Outcome = Success(conversationId: string) | Failed(why: Failure) | Crashed

  predicate ValidPair(creator: string, participant: string) {
    creator != "" && participant != "" && creator != participant
  }

  /** What the calls made on behalf of one conversation may do to Permissions. */
  ghost predicate Bootstrapped(p: P.State, p': P.State, creator: string, participant: string, id: string) {
    && GrantsHaveOwners(p')
    && OnlyTouches(p, p', {AccessKey(creator, id), AccessKey(participant, id)})
    && OwnersOnlyOn(p, p', {RefOf(id)})
    && (RefOf(id) in p'.owners ==> RefOf(id) in p.owners || p'.owners[RefOf(id)] == creator)
    && (AccessKey(creator, id) in p.active ==> AccessKey(creator, id) in p'.active)
    && (AccessKey(participant, id) in p.active ==> AccessKey(participant, id) in p'.active)
  }

  lemma BootstrappedCompose(p: P.State, q: P.State, r: P.State, creator: string, participant: string, id: string)
    requires Bootstrapped(p, q, creator, participant, id) && Bootstrapped(q, r, creator, participant, id)
    ensures Bootstrapped(p, r, creator, participant, id)
  {
  }

  lemma KeyGivesAccess(s: Snapshot, subject: string, id: string)
    requires RESOURCE_TYPE in s.perms.policies && subject != "" && id != "" && AccessKey(subject, id) in s.perms.active
    ensures MayAccess(s, subject, id)
  {
  }

  lemma BootstrappedGoverns(p: P.State, p': P.State, creator: string, participant: string, c: Conversation)
    requires Bootstrapped(p, p', creator, participant, c.conversationId) && Governed(p, c) && {c.lo, c.hi} == {creator, participant}
    ensures Governed(p', c)
  {
    forall key | key in p'.active && key.resource == RefOf(c.conversationId) ensures key.subject in {c.lo, c.hi} {
      if key !in {AccessKey(creator, c.conversationId), AccessKey(participant, c.conversationId)} {
        assert ScopeHeld(p', key) == ScopeHeld(p, key);
      }
    }
  }

  lemma OthersStayGoverned(p: P.State, p': P.State, creator: string, participant: string, id: string, c: Conversation)
    requires Bootstrapped(p, p', creator, participant, id) && Governed(p, c) && c.conversationId != id
    ensures Governed(p', c)
  {
    forall key | key in p'.active && key.resource == RefOf(c.conversationId) ensures key.subject in {c.lo, c.hi} {
      assert ScopeHeld(p', key) == ScopeHeld(p, key);
    }
  }

  lemma BootstrappedKeepsInv(s: Snapshot, p': P.State, creator: string, participant: string, id: string)
    requires Inv(s) && Bootstrapped(s.perms, p', creator, participant, id)
    requires id in s.store.conversations ==> PairOf(s.store.conversations[id]) == CanonicalPair(creator, participant)
    ensures Inv(Snapshot(s.store, p'))
  {
    forall other | other in s.store.conversations ensures Governed(p', s.store.conversations[other]) {
      var c := s.store.conversations[other];
      if other == id {
        BootstrappedGoverns(s.perms, p', creator, participant, c);
      } else {
        OthersStayGoverned(s.perms, p', creator, participant, id, c);
      }
    }
  }

  /** What one call does to the whole state. */
  ghost predicate Creates(a: Snapshot, b: Snapshot, creator: string, participant: string, r: Outcome) {
    var pair := CanonicalPair(creator, participant);
    && Inv(b)
    && (forall p :: p in a.store.pairIndex ==> p in b.store.pairIndex && b.store.pairIndex[p] == a.store.pairIndex[p])
    && (forall p :: p in b.store.pairIndex ==> p in a.store.pairIndex || p == pair)
    && (forall id, subject :: id in a.store.conversations && MayAccess(a, subject, id) ==> MayAccess(b, subject, id))
    && (r.Success? ==>
          && ValidPair(creator, participant)
          && pair in b.store.pairIndex && b.store.pairIndex[pair] == r.conversationId
          && MayAccess(b, creator, r.conversationId) && MayAccess(b, participant, r.conversationId))
  }

  lemma InsertKeepsIndex(s: Contents, c: Conversation)
    requires Indexed(s) && PairOf(c) !in s.pairIndex && c.conversationId !in s.conversations
    ensures Indexed(Inserted(s, c))
  {
  }

  lemma InsertKeepsInv(s: Snapshot, creator: string, participant: string, id: string, now: int)
    requires Inv(s) && ValidPair(creator, participant) && CanonicalPair(creator, participant) !in s.store.pairIndex
    requires id != "" && id !in s.store.conversations && RefOf(id) !in s.perms.owners
    ensures var pair := CanonicalPair(creator, participant);
            Inv(Snapshot(Inserted(s.store, Conversation(id, pair.0, pair.1, now)), s.perms))
  {
    LexLeTotal(creator, participant);
    var pair := CanonicalPair(creator, participant);
    InsertKeepsIndex(s.store, Conversation(id, pair.0, pair.1, now));
  }

  lemma DeleteKeepsInv(s: Snapshot, id: string)
    requires Inv(s)
    ensures Inv(Snapshot(Deleted(s.store, id), s.perms))
  {
  }

  lemma AccessStays(p: P.State, p': P.State, creator: string, participant: string, id: string, other: string, subject: string)
    requires Bootstrapped(p, p', creator, participant, id) && P.Check(p, subject, ACCESS, RefOf(other)) == Ok(true)
    ensures P.Check(p', subject, ACCESS, RefOf(other)) == Ok(true)
  {
    var key := AccessKey(subject, other);
    if key !in {AccessKey(creator, id), AccessKey(participant, id)} {
      assert ScopeHeld(p', key) == ScopeHeld(p, key);
    }
  }

  /** A row found or inserted, grants on it, and the row kept, or removed again if it was new: that is a call. */
  lemma CallCreates(a: Snapshot, b: Snapshot, creator: string, participant: string, c: Conversation, created: bool, r: Outcome)
    requires Inv(a) && PairOf(c) == CanonicalPair(creator, participant) && ValidPair(creator, participant)
    requires created ==> c.conversationId !in a.store.conversations && PairOf(c) !in a.store.pairIndex
    requires !created ==> PairOf(c) in a.store.pairIndex && a.store.pairIndex[PairOf(c)] == c.conversationId
    requires var inserted := if created then Inserted(a.store, c) else a.store;
             && Inv(Snapshot(inserted, a.perms))
             && b.store == (if created && r.Failed? then Deleted(inserted, c.conversationId) else inserted)
    requires Bootstrapped(a.perms, b.perms, creator, participant, c.conversationId)
    requires r.Success? ==> r.conversationId == c.conversationId && MayAccess(b, creator, c.conversationId) && MayAccess(b, participant, c.conversationId)
    ensures Creates(a, b, creator, participant, r)
  {
    var inserted := if created then Inserted(a.store, c) else a.store;
    BootstrappedKeepsInv(Snapshot(inserted, a.perms), b.perms, creator, participant, c.conversationId);
    DeleteKeepsInv(Snapshot(inserted, b.perms), c.conversationId);
    forall id, subject | id in a.store.conversations && MayAccess(a, subject, id) ensures MayAccess(b, subject, id) {
      AccessStays(a.perms, b.perms, creator, participant, c.conversationId, id, subject);
    }
    assert Inv(b);
  }

  class Service {
    const store: InMemoryStore
    const perms: PermissionsClient

    ghost function Snap(): Snapshot
      reads store, perms.service.store
    {
      Snapshot(store.View(), perms.View())
    }

    constructor (store: InMemoryStore, perms: PermissionsClient)
      ensures this.store == store && this.perms == perms
    {
      this.store, this.perms := store, perms;
    }

    /** One bootstrap grant, by the creator, on a conversation. */
    method GrantAccess(creator: string, participant: string, subject: string, id: string, now: int) returns (ok: bool)
      requires GrantsHaveOwners(perms.View()) && subject in {creator, participant}
      modifies perms, perms.service.store
      ensures Bootstrapped(old(perms.View()), perms.View(), creator, participant, id)
      ensures ok ==> ScopeHeld(perms.View(), AccessKey(subject, id)) == Some("full")
      ensures var req := P.GrantRequest(creator, subject, ACCESS, RefOf(id), FULL_SCOPE);
              !perms.faulted ==> (ok <==> P.ValidGrantRequest(req) && P.AuthorizeGrant(old(perms.View()), req).Allowed?)
      ensures old(perms.faulted) ==> perms.faulted
    {
      var req := P.GrantRequest(creator, subject, ACCESS, RefOf(id), FULL_SCOPE);
      GrantEffect(perms.View(), req, now);
      ok := perms.Grant(creator, subject, ACCESS, RefOf(id), FULL_SCOPE, now);
    }

    /** The grants of a conversation just inserted; on failure the row is removed again. */
    method Bootstrap(creator: string, participant: string, id: string, now: int) returns (r: Outcome)
      requires ValidPair(creator, participant) && id != "" && Indexed(store.View())
      requires GrantsHaveOwners(perms.View()) && RESOURCE_TYPE in perms.View().policies && RefOf(id) !in perms.View().owners
      modifies store, perms, perms.service.store
      ensures Bootstrapped(old(perms.View()), perms.View(), creator, participant, id)
      ensures store.View() == if r.Failed? then Deleted(old(store.View()), id) else old(store.View())
      ensures r.Success? ==> r.conversationId == id && MayAccess(Snap(), creator, id) && MayAccess(Snap(), participant, id)
      ensures !perms.faulted && !r.Crashed? ==> r.Success?
      ensures old(perms.faulted) ==> perms.faulted
    {
      if * {
        return Crashed;
      }
      var ok := GrantAccess(creator, participant, creator, id, now);
      if !ok {
        store.DeleteConversationRecord(id);
        return Failed(GrantFailed);
      }
      if * {
        return Crashed;
      }
      ghost var half := perms.View();
      ok := GrantAccess(creator, participant, participant, id, now);
      BootstrappedCompose(old(perms.View()), half, perms.View(), creator, participant, id);
      if !ok {
        store.DeleteConversationRecord(id);
        return Failed(GrantFailed);
      }
      KeyGivesAccess(Snap(), creator, id);
      KeyGivesAccess(Snap(), participant, id);
      if * {
        return Crashed;
      }
      ok := perms.Emit();
      if !ok {
        store.DeleteConversationRecord(id);
        return Failed(AuditFailed);
      }
      return Success(id);
    }

    /** A retry: whichever of the two grants is missing is issued again, the creator always the grantor. */
    method RepairMissingBootstrapGrants(creator: string, participant: string, id: string, now: int) returns (r: Outcome)
      requires ValidPair(creator, participant) && id != ""
      requires Inv(Snap()) && id in store.conversations && PairOf(store.conversations[id]) == CanonicalPair(creator, participant)
      modifies perms, perms.service.store
      ensures Bootstrapped(old(perms.View()), perms.View(), creator, participant, id)
      ensures r.Success? ==> r.conversationId == id && MayAccess(Snap(), creator, id) && MayAccess(Snap(), participant, id)
      ensures !perms.faulted && !r.Crashed? ==> (r.Success? <==> Servable(old(Snap()), creator, participant))
      ensures old(MayAccess(Snap(), creator, id) && MayAccess(Snap(), participant, id)) ==> perms.View() == old(perms.View())
      ensures old(perms.faulted) ==> perms.faulted
    {
      var checkedCreator := perms.CheckPermission(creator, ACCESS, RefOf(id));
      if checkedCreator.Err? {
        return Failed(CheckFailed);
      }
      var checkedParticipant := perms.CheckPermission(participant, ACCESS, RefOf(id));
      if checkedParticipant.Err? {
        return Failed(CheckFailed);
      }
      if checkedCreator.value && checkedParticipant.value {
        return Success(id);
      }
      if !checkedCreator.value {
        if * {
          return Crashed;
        }
        var ok := GrantAccess(creator, participant, creator, id, now);
        if !ok {
          return Failed(GrantFailed);
        }
      }
      if !checkedParticipant.value {
        if * {
          return Crashed;
        }
        var ok := GrantAccess(creator, participant, participant, id, now);
        if !ok {
          return Failed(GrantFailed);
        }
      }
      if * {
        return Crashed;
      }
      var ok := perms.Emit();
      if !ok {
        return Failed(AuditFailed);
      }
      return Success(id);
    }

    /** `perms.faulted` tells afterwards whether any call made on the way failed. */
    method CreateConversation(creator: string, participant: string, candidateId: string, now: int) returns (r: Outcome)
      requires Inv(Snap())
      requires candidateId != "" && candidateId !in store.conversations && RefOf(candidateId) !in perms.View().owners
      modifies store, perms, perms.service.store
      ensures Creates(old(Snap()), Snap(), creator, participant, r)
      ensures !ValidPair(creator, participant) ==> r == Failed(InvalidArgument) && Snap() == old(Snap())
      ensures ValidPair(creator, participant) && !perms.faulted && !r.Crashed? ==>
                (r.Success? <==> Servable(old(Snap()), creator, participant))
    {
      perms.faulted := false;
      if creator == "" || participant == "" || creator == participant {
        return Failed(InvalidArgument);
      }
      ghost var before := Snap();
      var pair := CanonicalPair(creator, participant);
      if pair !in store.pairIndex {
        InsertKeepsInv(before, creator, participant, candidateId, now);
      }
      var rec, created := store.FindOrCreateConversation(Conversation(candidateId, pair.0, pair.1, now));
      if * {
        r := Crashed;
      } else if created {
        r := Bootstrap(creator, participant, rec.conversationId, now);
      } else {
        r := RepairMissingBootstrapGrants(creator, participant, rec.conversationId, now);
      }
      CallCreates(before, Snap(), creator, participant, rec, created, r);
    }

    /** The one authorization check of every participant-only call. */
    method CheckAccess(subject: string, id: string) returns (denied: Option<Failure>)
      modifies perms
      ensures denied.None? ==> subject != "" && id != "" && MayAccess(Snap(), subject, id)
      ensures denied.Some? ==> !denied.value.AuditFailed?
      ensures !perms.faulted && subject != "" && id != "" ==> (denied.None? <==> MayAccess(Snap(), subject, id))
      ensures old(perms.faulted) ==> perms.faulted
    {
      if subject == "" || id == "" {
        return Some(InvalidArgument);
      }
      var checked := perms.CheckPermission(subject, ACCESS, RefOf(id));
      if checked.Err? {
        return Some(CheckFailed);
      }
      if !checked.value {
        var audited := perms.Emit();
        return Some(Denied);
      }
      return None;
    }

    /** An accepted message lands at the end of its conversation's log even when its audit event is refused. */
    method SendMessage(sender: string, id: string, ciphertext: ByteString, payload: Option<ByteString>, messageId: string, now: int)
      returns (r: Result<string, Failure>)
      requires StoreOrdered(store.View())
      requires FreshId(store.View(), Message(messageId, id, sender, ciphertext, payload, now, 0))
      modifies store, perms
      ensures var m := Message(messageId, id, sender, ciphertext, payload, now, 0);
              if r.Ok? || r.error.AuditFailed? then
                MayAccess(old(Snap()), sender, id) && ciphertext != [] && store.View() == Added(old(store.View()), m)
              else store.View() == old(store.View())
      ensures StoreOrdered(store.View())
      ensures forall c :: MessagesOf(old(store.View()), c) <= MessagesOf(store.View(), c)
    {
      if id == "" || sender == "" || ciphertext == [] {
        return Err(InvalidArgument);
      }
      var denied := CheckAccess(sender, id);
      if denied.Some? {
        return Err(denied.value);
      }
      var m := Message(messageId, id, sender, ciphertext, payload, now, 0);
      AddingExtends(store.View(), m);
      store.AddMessage(m);
      var audited := perms.Emit();
      if !audited {
        return Err(AuditFailed);
      }
      return Ok(messageId);
    }

    method ListMessages(subject: string, id: string, before: Option<string>, requested: int)
      returns (r: Result<(seq<Message>, bool), Failure>)
      modifies perms
      ensures var cursor := if before == Some("") then None else before;
              var listed := ListPage(MessagesOf(store.View(), id), cursor, requested);
              && (r.Ok? ==> MayAccess(Snap(), subject, id) && listed == Some(r.value))
              && (!perms.faulted && subject != "" && id != "" ==> (r.Ok? <==> MayAccess(Snap(), subject, id) && listed.Some?))
    {
      var denied := CheckAccess(subject, id);
      if denied.Some? {
        return Err(denied.value);
      }
      var limit := requested;
      if limit <= 0 {
        limit := DEFAULT_LIMIT;
      }
      if limit > MAX_LIMIT {
        limit := MAX_LIMIT;
      }
      var number: Option<int> := None;
      if before.Some? && before.value != "" {
        number := store.MessageNumber(id, before.value);
        if number.None? {
          return Err(InvalidArgument);
        }
      }
      var page, hasMore := store.ListMessages(id, number, limit);
      return Ok((page, hasMore));
    }
  }

  // ----- Over any sequence of calls -----

  datatype Call = Call(creator: string, participant: string, outcome: Outcome)

  /** `states[i]` is what call `i` found and `states[i + 1]` what it left, crashed or not. */
  ghost predicate History(states: seq<Snapshot>, calls: seq<Call>) {
    && |states| == |calls| + 1 && Inv(states[0])
    && forall i: nat :: i < |calls| ==> CallAt(states, calls, i)
  }

  ghost predicate CallAt(states: seq<Snapshot>, calls: seq<Call>, i: nat)
    requires i < |calls| && |states| == |calls| + 1
  {
    Creates(states[i], states[i + 1], calls[i].creator, calls[i].participant, calls[i].outcome)
  }

  /** What a state keeps of an earlier one: its rows and everyone's access. */
  ghost predicate Keeps(a: Snapshot, b: Snapshot) {
    && (forall p :: p in a.store.pairIndex ==> p in b.store.pairIndex && b.store.pairIndex[p] == a.store.pairIndex[p])
    && (forall p, subject :: p in a.store.pairIndex && MayAccess(a, subject, a.store.pairIndex[p]) ==>
                               MayAccess(b, subject, a.store.pairIndex[p]))
  }

  lemma OneCallKeeps(a: Snapshot, b: Snapshot, creator: string, participant: string, r: Outcome)
    requires Inv(a) && Creates(a, b, creator, participant, r)
    ensures Inv(b) && Keeps(a, b)
  {
  }

  lemma KeepingComposes(a: Snapshot, b: Snapshot, c: Snapshot)
    requires Keeps(a, b) && Keeps(b, c)
    ensures Keeps(a, c)
  {
  }

  lemma {:induction false} HistoryKeeps(states: seq<Snapshot>, calls: seq<Call>, i: nat, j: nat)
    requires History(states, calls) && i <= j < |states|
    ensures Inv(states[j]) && Keeps(states[i], states[j])
    decreases j
  {
    if j > 0 {
      HistoryKeeps(states, calls, if i < j then i else j - 1, j - 1);
      assert CallAt(states, calls, j - 1);
      OneCallKeeps(states[j - 1], states[j], calls[j - 1].creator, calls[j - 1].participant, calls[j - 1].outcome);
      if i < j {
        KeepingComposes(states[i], states[j - 1], states[j]);
      }
    }
  }

  /** Exactly the two participants may be able to access a conversation that exists. */
  lemma NobodyElse(s: Snapshot, subject: string, id: string)
    requires Inv(s) && id in s.store.conversations && MayAccess(s, subject, id)
    ensures subject in {s.store.conversations[id].lo, s.store.conversations[id].hi}
  {
    assert Governed(s.perms, s.store.conversations[id]);
  }

  lemma SuccessStands(states: seq<Snapshot>, calls: seq<Call>, i: nat)
    requires History(states, calls) && i < |calls| && calls[i].outcome.Success?
    ensures var end, id := states[|calls|], calls[i].outcome.conversationId;
            && Inv(end) && id in end.store.conversations
            && PairOf(end.store.conversations[id]) == CanonicalPair(calls[i].creator, calls[i].participant)
            && MayAccess(end, calls[i].creator, id) && MayAccess(end, calls[i].participant, id)
  {
    assert CallAt(states, calls, i);
    HistoryKeeps(states, calls, i + 1, |calls|);
  }

  /**
   After any sequence of calls, crashes and failures included: whoever was
   told success, in whichever role, was told the same id for the same two
   people; both still have access to it and nobody else does.
   */
  lemma ConversationsAreOnePerPair(states: seq<Snapshot>, calls: seq<Call>, i: nat, j: nat, subject: string)
    requires History(states, calls) && i < |calls| && j < |calls| && calls[i].outcome.Success? && calls[j].outcome.Success?
    ensures var end := states[|calls|];
            var id := calls[i].outcome.conversationId;
            && (calls[j].outcome.conversationId == id <==>
                  {calls[j].creator, calls[j].participant} == {calls[i].creator, calls[i].participant})
            && (P.Check(end.perms, subject, "conversations.access", P.ResourceRef("conversation", id)) == Ok(true) <==>
                  subject in {calls[i].creator, calls[i].participant})
  {
    var end, id := states[|calls|], calls[i].outcome.conversationId;
    SuccessStands(states, calls, i);
    SuccessStands(states, calls, j);
    PairsAreUnordered(calls[i].creator, calls[i].participant, calls[j].creator, calls[j].participant);
    if MayAccess(end, subject, id) {
      NobodyElse(end, subject, id);
    }
  }

  /**
   A crash right after the creator's own grant: the creator can repair by
   calling again, but the other participant's calls are refused until then.
   */
  lemma OnlyTheCreatorCanRepair(s: Snapshot, creator: string, participant: string, id: string, now: int)
    requires Inv(s) && ValidPair(creator, participant) && CanonicalPair(creator, participant) !in s.store.pairIndex
    requires id != "" && id !in s.store.conversations && RefOf(id) !in s.perms.owners
    ensures var pair := CanonicalPair(creator, participant);
            var crashed := Snapshot(Inserted(s.store, Conversation(id, pair.0, pair.1, now)),
                                    P.AfterGrant(s.perms, P.GrantRequest(creator, creator, ACCESS, RefOf(id), FULL_SCOPE), now));
            Servable(crashed, creator, participant) && !Servable(crashed, participant, creator)
  {
    PairsAreUnordered(creator, participant, participant, creator);
    assert AccessKey(participant, id) in s.perms.active ==> RefOf(id) in s.perms.owners;
  }
}
