/** What one permission call can change, as its callers need to know it. */
module PermissionEffects {
  import opened Wrappers
  import opened Permissions

  /** The scope a subject holds, if it holds an active grant. */
  function ScopeHeld(p: State, key: GrantKey): Option<string> {
    if key in p.active then Some(p.active[key].scope) else None
  }

  /** Grants other than those in `touched` are as before, and nobody lost ownership. */
  ghost predicate OnlyTouches(p: State, p': State, touched: set<GrantKey>) {
    && p'.policies == p.policies
    && (forall key :: key !in touched ==> ScopeHeld(p', key) == ScopeHeld(p, key))
    && (forall r :: r in p.owners ==> r in p'.owners && p'.owners[r] == p.owners[r])
  }

  /** Ownership appears only on the resources in `born`. */
  ghost predicate OwnersOnlyOn(p: State, p': State, born: set<ResourceRef>) {
    forall r :: r in p'.owners ==> r in p.owners || r in born
  }

  /** Every active grant is on a resource that has an owner. */
  ghost predicate GrantsHaveOwners(p: State) {
    forall key :: key in p.active ==>
      KeyOf(p.active[key]) == key && key.resource in p.owners && key.subject != "" && key.action != ""
  }

  lemma TouchesCompose(p: State, q: State, r: State, a: set<GrantKey>, b: set<GrantKey>)
    requires OnlyTouches(p, q, a) && OnlyTouches(q, r, b)
    ensures OnlyTouches(p, r, a + b)
  {
  }

  /** Everything done since `p` stayed within the given grants and newly owned resources. */
  ghost predicate Within(p: State, p': State, touched: set<GrantKey>, born: set<ResourceRef>) {
    GrantsHaveOwners(p') && OnlyTouches(p, p', touched) && OwnersOnlyOn(p, p', born)
  }

  lemma WithinStep(p: State, q: State, r: State, touched: set<GrantKey>, born: set<ResourceRef>,
                   t: set<GrantKey>, b: set<ResourceRef>)
    requires Within(p, q, touched, born) && Within(q, r, t, b) && t <= touched && b <= born
    ensures Within(p, r, touched, born)
  {
  }

  lemma GrantEffect(p: State, req: GrantRequest, now: int)
    requires GrantsHaveOwners(p)
    ensures var p' := AfterGrant(p, req, now);
            && OnlyTouches(p, p', {GrantKey(req.subject, req.action, req.resource)})
            && OwnersOnlyOn(p, p', {req.resource})
            && GrantsHaveOwners(p')
    ensures ValidGrantRequest(req) && AuthorizeGrant(p, req).Allowed? ==>
              var p' := AfterGrant(p, req, now);
              && ScopeHeld(p', GrantKey(req.subject, req.action, req.resource)) == Some(req.scope)
              && req.resource in p'.owners
              && (req.resource !in p.owners ==> p'.owners[req.resource] == req.grantor)
  {
  }

  lemma RevokeEffect(p: State, req: RevokeRequest, now: int)
    requires GrantsHaveOwners(p)
    ensures var p' := AfterRevoke(p, req, now);
            && OnlyTouches(p, p', {GrantKey(req.subject, req.action, req.resource)})
            && p'.owners == p.owners
            && GrantsHaveOwners(p')
    ensures ValidRevokeRequest(req) && RevokeOutcome(p, req).Allowed? ==>
              ScopeHeld(AfterRevoke(p, req, now), GrantKey(req.subject, req.action, req.resource)) == None
    ensures ValidRevokeRequest(req) && req.resource in p.owners && p.owners[req.resource] == req.grantor ==>
              ScopeHeld(AfterRevoke(p, req, now), GrantKey(req.subject, req.action, req.resource)) == None
  {
  }

  /**
   Permissions as another capability reaches it: any call may fail before it
   takes effect, or take effect and still report an error because its audit
   event was refused.  `faulted` remembers that some call failed that way since
   the capability's own call began.
   */
  class PermissionsClient {
    const service: Service
    ghost var faulted: bool

    ghost function View(): State
      reads service.store
    {
      service.store.View()
    }

    constructor (service: Service)
      ensures this.service == service && !faulted
    {
      this.service := service;
      faulted := false;
    }

    method Grant(grantor: string, subject: string, action: string, resource: ResourceRef, scope: string, now: int)
      returns (ok: bool)
      requires GrantsHaveOwners(View())
      modifies this, service.store
      ensures var req := GrantRequest(grantor, subject, action, resource, scope);
              && (View() == old(View()) || View() == AfterGrant(old(View()), req, now))
              && (ok ==> View() == AfterGrant(old(View()), req, now) &&
                         ValidGrantRequest(req) && AuthorizeGrant(old(View()), req).Allowed?)
              && (!ok && ValidGrantRequest(req) && AuthorizeGrant(old(View()), req).Allowed? ==> faulted)
      ensures !ok && !faulted ==> OnlyTouches(old(View()), View(), {})
      ensures old(faulted) ==> faulted
      ensures ok ==> faulted == old(faulted)
      ensures GrantsHaveOwners(View())
      ensures OnlyTouches(old(View()), View(), {GrantKey(subject, action, resource)})
      ensures OwnersOnlyOn(old(View()), View(), {resource})
    {
      var req := GrantRequest(grantor, subject, action, resource, scope);
      GrantEffect(View(), req, now);
      var reached: bool := *;
      if !reached {
        faulted := true;
        return false;
      }
      var auditOk: bool := *;
      var r := service.GrantPermission(req, now, auditOk);
      if !auditOk {
        faulted := true;
      }
      return r.Ok?;
    }

    method Revoke(grantor: string, subject: string, action: string, resource: ResourceRef, now: int)
      returns (ok: bool)
      requires GrantsHaveOwners(View())
      modifies this, service.store
      ensures var req := RevokeRequest(grantor, subject, action, resource);
              && (View() == old(View()) || View() == AfterRevoke(old(View()), req, now))
              && (ok ==> View() == AfterRevoke(old(View()), req, now) &&
                         ValidRevokeRequest(req) && RevokeOutcome(old(View()), req).Allowed?)
              && (!faulted ==> View() == AfterRevoke(old(View()), req, now))
              && (!ok && ValidRevokeRequest(req) && RevokeOutcome(old(View()), req).Allowed? ==> faulted)
      ensures !ok && !faulted ==> OnlyTouches(old(View()), View(), {})
      ensures old(faulted) ==> faulted
      ensures GrantsHaveOwners(View())
      ensures OnlyTouches(old(View()), View(), {GrantKey(subject, action, resource)})
      ensures View().owners == old(View()).owners
    {
      var req := RevokeRequest(grantor, subject, action, resource);
      RevokeEffect(View(), req, now);
      var reached: bool := *;
      if !reached {
        faulted := true;
        return false;
      }
      var auditOk: bool := *;
      var r := service.RevokePermission(req, now, auditOk);
      if !auditOk {
        faulted := true;
      }
      return r.Ok?;
    }

    method CheckPermission(subject: string, action: string, resource: ResourceRef) returns (r: Result<bool, Error>)
      modifies this
      ensures r.Ok? ==> r == Check(View(), subject, action, resource)
      ensures r.Err? ==> faulted || r == Check(View(), subject, action, resource)
      ensures old(faulted) ==> faulted
    {
      var reached: bool := *;
      if !reached {
        faulted := true;
        return Err(AuditFailed);
      }
      r := service.CheckPermission(subject, action, resource);
    }

    /** Every active grant on the resource; None when the call failed. */
    method ListGrants(resource: ResourceRef) returns (out: Option<seq<Permissions.Grant>>)
      requires GrantsHaveOwners(View())
      modifies this
      ensures out.Some? ==> (forall key :: key in View().active && key.resource == resource ==>
                               View().active[key] in out.value)
      ensures out.Some? ==> (forall g :: g in out.value ==>
                               g.resource == resource && KeyOf(g) in View().active && View().active[KeyOf(g)] == g)
      ensures out.None? ==> faulted
      ensures old(faulted) ==> faulted
      ensures out.Some? ==> faulted == old(faulted)
    {
      var reached: bool := *;
      if !reached {
        faulted := true;
        return None;
      }
      var grants := service.store.GrantsForResource(resource);
      assert forall key :: key in service.store.active <==> key in View().active;
      return Some(grants);
    }

    /** The audit seam; a refused event is a fault too. */
    method Emit() returns (ok: bool)
      modifies this
      ensures !ok ==> faulted
      ensures old(faulted) ==> faulted
    {
      ok := *;
      if !ok {
        faulted := true;
      }
    }
  }
}
