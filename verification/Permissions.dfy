/**
 The Permissions service: who may do what to which resource.

 `State` is the abstract content of the store; the classes at the end are the
 in-memory store and the service over it, each method proved against a function
 on `State`.  Map keys are tuples, so key separators cannot collide.
 */
module Permissions {
  import opened Wrappers
  import opened Scopes

  datatype ResourceRef = ResourceRef(resourceType: string, resourceId: string)

  datatype GrantKey = GrantKey(subject: string, action: string, resource: ResourceRef)

  datatype Grant = Grant(grantor: string, subject: string, action: string, resource: ResourceRef,
                         scope: string, grantedAtUnix: int)

  datatype EventType = GrantEvent | RevokeEvent

  datatype Outcome = Allowed | Denied(reason: string)

  datatype HistoryEntry = HistoryEntry(eventType: EventType, grantor: string, subject: string, action: string,
                                       resource: ResourceRef, scope: string, atUnix: int, outcome: Outcome)

  datatype State = State(active: map<GrantKey, Grant>, owners: map<ResourceRef, string>,
                         policies: set<string>, history: seq<HistoryEntry>)

  datatype GrantRequest = GrantRequest(grantor: string, subject: string, action: string,
                                       resource: ResourceRef, scope: string)

  datatype RevokeRequest = RevokeRequest(grantor: string, subject: string, action: string, resource: ResourceRef)

  datatype Error = InvalidArgument | PermissionDenied | NoSuchGrant | AuditFailed

  const EmptyState := State(map[], map[], {}, [])

  function KeyOf(g: Grant): GrantKey {
    GrantKey(g.subject, g.action, g.resource)
  }

  predicate ValidResource(r: ResourceRef) {
    r.resourceType != "" && r.resourceId != ""
  }

  // ----- Decisions -----

  function Check(s: State, subject: string, action: string, resource: ResourceRef): Result<bool, Error> {
    if subject == "" || action == "" || !ValidResource(resource) then Err(InvalidArgument)
    else if resource.resourceType !in s.policies then Ok(false)
    else if resource in s.owners && s.owners[resource] == subject then Ok(true)
    else Ok(GrantKey(subject, action, resource) in s.active)
  }

  function AuthorizeGrant(s: State, req: GrantRequest): Outcome {
    if req.resource !in s.owners then Allowed
    else if s.owners[req.resource] == req.grantor then Allowed
    else
      var key := GrantKey(req.grantor, req.action, req.resource);
      if key in s.active && ScopeAtLeast(s.active[key].scope, req.scope) then Allowed
      else Denied("insufficient_privilege")
  }

  function AuthorizeRevoke(s: State, req: RevokeRequest, existing: Grant): Outcome {
    if req.resource in s.owners && s.owners[req.resource] == req.grantor then Allowed
    else if existing.grantor == req.grantor then Allowed
    else if req.grantor == req.subject then Allowed
    else Denied("insufficient_privilege")
  }

  // ----- State transitions -----

  function PutGrant(s: State, g: Grant): State {
    s.(active := s.active[KeyOf(g) := g],
       owners := if g.resource in s.owners then s.owners else s.owners[g.resource := g.grantor])
  }

  function RemoveGrant(s: State, key: GrantKey): State {
    s.(active := s.active - {key})
  }

  function AppendHistory(s: State, h: HistoryEntry): State {
    s.(history := s.history + [h])
  }

  predicate ValidGrantRequest(req: GrantRequest) {
    req.grantor != "" && req.subject != "" && req.action != "" && ValidResource(req.resource)
  }

  predicate ValidRevokeRequest(req: RevokeRequest) {
    req.grantor != "" && req.subject != "" && req.action != "" && ValidResource(req.resource)
  }

  function GrantOf(req: GrantRequest, now: int): Grant {
    Grant(req.grantor, req.subject, req.action, req.resource, req.scope, now)
  }

  function GrantEntry(req: GrantRequest, now: int, outcome: Outcome): HistoryEntry {
    HistoryEntry(GrantEvent, req.grantor, req.subject, req.action, req.resource, req.scope, now, outcome)
  }

  function RevokeEntry(req: RevokeRequest, now: int, outcome: Outcome): HistoryEntry {
    HistoryEntry(RevokeEvent, req.grantor, req.subject, req.action, req.resource, "", now, outcome)
  }

  /** State after a grant call; a denied call leaves only a history entry. */
  function AfterGrant(s: State, req: GrantRequest, now: int): State {
    if !ValidGrantRequest(req) then s
    else
      var outcome := AuthorizeGrant(s, req);
      var s' := if outcome.Allowed? then PutGrant(s, GrantOf(req, now)) else s;
      AppendHistory(s', GrantEntry(req, now, outcome))
  }

  /** Why a revoke call is allowed or refused. */
  function RevokeOutcome(s: State, req: RevokeRequest): Outcome {
    var key := GrantKey(req.subject, req.action, req.resource);
    if key !in s.active then Denied("not_found") else AuthorizeRevoke(s, req, s.active[key])
  }

  function AfterRevoke(s: State, req: RevokeRequest, now: int): State {
    if !ValidRevokeRequest(req) then s
    else
      var outcome := RevokeOutcome(s, req);
      var key := GrantKey(req.subject, req.action, req.resource);
      var s' := if outcome.Allowed? then RemoveGrant(s, key) else s;
      AppendHistory(s', RevokeEntry(req, now, outcome))
  }

  function AfterDefinePolicy(s: State, resourceType: string): State {
    if resourceType == "" then s else s.(policies := s.policies + {resourceType})
  }

  // ----- The store and the service -----

  class InMemoryStore {
    var active: map<GrantKey, Grant>
    var owners: map<ResourceRef, string>
    var policies: set<string>
    var history: seq<HistoryEntry>

    ghost function View(): State
      reads this
    {
      State(active, owners, policies, history)
    }

    constructor ()
      ensures View() == EmptyState
    {
      active, owners, policies, history := map[], map[], {}, [];
    }

    method ActiveGrant(subject: string, action: string, resource: ResourceRef) returns (g: Option<Grant>)
      ensures g == (var key := GrantKey(subject, action, resource);
                    if key in active then Some(active[key]) else None)
    {
      var key := GrantKey(subject, action, resource);
      if key in active { g := Some(active[key]); } else { g := None; }
    }

    method OwnerOf(resource: ResourceRef) returns (owner: Option<string>)
      ensures owner == if resource in owners then Some(owners[resource]) else None
    {
      if resource in owners { owner := Some(owners[resource]); } else { owner := None; }
    }

    method Put(g: Grant)
      modifies this
      ensures View() == PutGrant(old(View()), g)
    {
      active := active[KeyOf(g) := g];
      if g.resource !in owners {
        owners := owners[g.resource := g.grantor];
      }
    }

    method Remove(subject: string, action: string, resource: ResourceRef)
      modifies this
      ensures View() == RemoveGrant(old(View()), GrantKey(subject, action, resource))
    {
      active := active - {GrantKey(subject, action, resource)};
    }

    method Append(h: HistoryEntry)
      modifies this
      ensures View() == AppendHistory(old(View()), h)
    {
      history := history + [h];
    }

    method SetPolicy(resourceType: string)
      modifies this
      ensures View() == old(View()).(policies := old(policies) + {resourceType})
    {
      policies := policies + {resourceType};
    }

    /** Grants are filed under their own key, as `Put` files them. */
    ghost predicate FiledByKey()
      reads this
    {
      forall key :: key in active ==> KeyOf(active[key]) == key
    }

    /** Every active grant on a resource, each once, in no promised order. */
    method GrantsForResource(resource: ResourceRef) returns (out: seq<Grant>)
      ensures forall key :: key in active && active[key].resource == resource ==> active[key] in out
      ensures forall g :: g in out ==> g.resource == resource && exists key :: key in active && active[key] == g
      ensures FiledByKey() ==> forall i, j :: 0 <= i < j < |out| ==> out[i] != out[j]
    {
      out := [];
      var todo := active.Keys;
      while todo != {}
        invariant todo <= active.Keys
        invariant forall key :: key in active && key !in todo && active[key].resource == resource ==> active[key] in out
        invariant forall g :: g in out ==> g.resource == resource && exists key :: key in active && active[key] == g
        invariant FiledByKey() ==> forall g :: g in out ==> KeyOf(g) !in todo
        invariant FiledByKey() ==> forall i, j :: 0 <= i < j < |out| ==> out[i] != out[j]
        decreases |todo|
      {
        var key :| key in todo;
        if active[key].resource == resource {
          out := out + [active[key]];
        }
        todo := todo - {key};
      }
    }
  }

  /** `auditOk` says whether the injected audit emitter accepts the event. */
  class Service {
    const store: InMemoryStore

    constructor (store: InMemoryStore)
      ensures this.store == store
    {
      this.store := store;
    }

    method CheckPermission(subject: string, action: string, resource: ResourceRef) returns (r: Result<bool, Error>)
      ensures r == Check(store.View(), subject, action, resource)
    {
      if subject == "" || action == "" || !ValidResource(resource) {
        return Err(InvalidArgument);
      }
      if resource.resourceType !in store.policies {
        return Ok(false);
      }
      var owner := store.OwnerOf(resource);
      if owner == Some(subject) {
        return Ok(true);
      }
      var held := store.ActiveGrant(subject, action, resource);
      return Ok(held.Some?);
    }

    method GrantPermission(req: GrantRequest, now: int, auditOk: bool) returns (r: Result<Grant, Error>)
      modifies store
      ensures store.View() == AfterGrant(old(store.View()), req, now)
      ensures r == if !ValidGrantRequest(req) then Err(InvalidArgument)
                   else if !AuthorizeGrant(old(store.View()), req).Allowed? then Err(PermissionDenied)
                   else if auditOk then Ok(GrantOf(req, now)) else Err(AuditFailed)
      ensures r.Ok? ==> KeyOf(r.value) in store.active && store.active[KeyOf(r.value)] == r.value
      ensures r == Err(AuditFailed) ==> KeyOf(GrantOf(req, now)) in store.active
      ensures r == Err(PermissionDenied) ==> store.active == old(store.active) && store.owners == old(store.owners)
    {
      if req.grantor == "" || req.subject == "" || req.action == "" || !ValidResource(req.resource) {
        return Err(InvalidArgument);
      }
      var owner := store.OwnerOf(req.resource);
      var held := store.ActiveGrant(req.grantor, req.action, req.resource);
      var allowed := owner.None? || owner.value == req.grantor ||
                     (held.Some? && ScopeAtLeast(held.value.scope, req.scope));
      if !allowed {
        store.Append(GrantEntry(req, now, Denied("insufficient_privilege")));
        return Err(PermissionDenied);
      }
      var grant := GrantOf(req, now);
      store.Put(grant);
      store.Append(GrantEntry(req, now, Allowed));
      if !auditOk {
        return Err(AuditFailed);
      }
      return Ok(grant);
    }

    method RevokePermission(req: RevokeRequest, now: int, auditOk: bool) returns (r: Result<(), Error>)
      modifies store
      ensures store.View() == AfterRevoke(old(store.View()), req, now)
      ensures r == if !ValidRevokeRequest(req) then Err(InvalidArgument)
                   else if GrantKey(req.subject, req.action, req.resource) !in old(store.active) then Err(NoSuchGrant)
                   else if !RevokeOutcome(old(store.View()), req).Allowed? then Err(PermissionDenied)
                   else if auditOk then Ok(()) else Err(AuditFailed)
      ensures r.Ok? ==> GrantKey(req.subject, req.action, req.resource) !in store.active
      ensures r == Err(AuditFailed) ==> GrantKey(req.subject, req.action, req.resource) !in store.active
    {
      if req.grantor == "" || req.subject == "" || req.action == "" || !ValidResource(req.resource) {
        return Err(InvalidArgument);
      }
      var existing := store.ActiveGrant(req.subject, req.action, req.resource);
      if existing.None? {
        store.Append(RevokeEntry(req, now, Denied("not_found")));
        return Err(NoSuchGrant);
      }
      var owner := store.OwnerOf(req.resource);
      var allowed := owner == Some(req.grantor) || existing.value.grantor == req.grantor || req.grantor == req.subject;
      if !allowed {
        store.Append(RevokeEntry(req, now, Denied("insufficient_privilege")));
        return Err(PermissionDenied);
      }
      store.Remove(req.subject, req.action, req.resource);
      store.Append(RevokeEntry(req, now, Allowed));
      if !auditOk {
        return Err(AuditFailed);
      }
      return Ok(());
    }

    method DefinePolicy(resourceType: string, auditOk: bool) returns (r: Result<(), Error>)
      modifies store
      ensures store.View() == AfterDefinePolicy(old(store.View()), resourceType)
      ensures r == if resourceType == "" then Err(InvalidArgument) else if auditOk then Ok(()) else Err(AuditFailed)
    {
      if resourceType == "" {
        return Err(InvalidArgument);
      }
      store.SetPolicy(resourceType);
      if !auditOk {
        return Err(AuditFailed);
      }
      return Ok(());
    }
  }
}
