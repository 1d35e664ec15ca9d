/** Who may grant and revoke what, and what one call changes, stated on grants, owners and the order of the scopes. */
module PermissionRules {
  import opened Wrappers
  import opened Scopes
  import opened Permissions

  /** Every field is given. */
  predicate Complete(who: string, subject: string, action: string, resource: ResourceRef) {
    who != "" && subject != "" && action != "" && resource.resourceType != "" && resource.resourceId != ""
  }

  /** The resource is nobody's, or the grantor's own, or the grantor holds the action on it with a scope that covers the one asked for. */
  predicate HasAuthority(s: State, grantor: string, action: string, resource: ResourceRef, scope: string) {
    || resource !in s.owners
    || s.owners[resource] == grantor
    || (GrantKey(grantor, action, resource) in s.active && Covers(s.active[GrantKey(grantor, action, resource)].scope, scope))
  }

  /** The decision by rank is the one by the order of the scopes. */
  lemma AuthorityByOrder(s: State, req: GrantRequest)
    ensures AuthorizeGrant(s, req).Allowed? <==> HasAuthority(s, req.grantor, req.action, req.resource, req.scope)
  {
    var key := GrantKey(req.grantor, req.action, req.resource);
    if key in s.active {
      ScopeAtLeastIsCovers(s.active[key].scope, req.scope);
    }
  }

  /** A grant with authority becomes the subject's grant, and its grantor the owner of a resource without one; every complete call is recorded. */
  lemma GrantRule(s: State, req: GrantRequest, now: int)
    ensures var s' := AfterGrant(s, req, now);
            var key := GrantKey(req.subject, req.action, req.resource);
            var allowed := HasAuthority(s, req.grantor, req.action, req.resource, req.scope);
            && s'.policies == s.policies
            && (!Complete(req.grantor, req.subject, req.action, req.resource) ==> s' == s)
            && (Complete(req.grantor, req.subject, req.action, req.resource) ==>
                  && s'.active == (if allowed
                                   then s.active[key := Grant(req.grantor, req.subject, req.action, req.resource, req.scope, now)]
                                   else s.active)
                  && s'.owners == (if allowed && req.resource !in s.owners then s.owners[req.resource := req.grantor] else s.owners)
                  && s'.history == s.history + [HistoryEntry(GrantEvent, req.grantor, req.subject, req.action, req.resource, req.scope, now,
                                                             if allowed then Allowed else Denied("insufficient_privilege"))])
  {
    AuthorityByOrder(s, req);
  }

  /** The resource's owner, the grant's grantor and the subject itself may revoke an active grant. */
  predicate MayRevoke(s: State, who: string, subject: string, action: string, resource: ResourceRef) {
    GrantKey(subject, action, resource) in s.active &&
    ((resource in s.owners && s.owners[resource] == who) || s.active[GrantKey(subject, action, resource)].grantor == who || who == subject)
  }

  /** A revoke by one of them removes the grant and nothing else; every complete call is recorded, with the reason of a refusal. */
  lemma RevokeRule(s: State, req: RevokeRequest, now: int)
    ensures var s' := AfterRevoke(s, req, now);
            var key := GrantKey(req.subject, req.action, req.resource);
            var allowed := MayRevoke(s, req.grantor, req.subject, req.action, req.resource);
            && s'.policies == s.policies && s'.owners == s.owners
            && (!Complete(req.grantor, req.subject, req.action, req.resource) ==> s' == s)
            && (Complete(req.grantor, req.subject, req.action, req.resource) ==>
                  && (forall k :: k in s'.active <==> k in s.active && !(allowed && k == key))
                  && (forall k :: k in s'.active ==> s'.active[k] == s.active[k])
                  && s'.history == s.history + [HistoryEntry(RevokeEvent, req.grantor, req.subject, req.action, req.resource, "", now,
                                                             if allowed then Allowed
                                                             else Denied(if key in s.active then "insufficient_privilege" else "not_found"))])
  {
  }

  /** A policy is registered for good, and nothing else changes. */
  lemma PolicyRule(s: State, resourceType: string)
    ensures var s' := AfterDefinePolicy(s, resourceType);
            && s'.active == s.active && s'.owners == s.owners && s'.history == s.history
            && forall t :: t in s'.policies <==> t in s.policies || (t == resourceType && t != "")
  {
  }

  /** Access is denied by default: it takes a registered type, and ownership or a grant of one's own; an incomplete question is an error. */
  lemma CheckRule(s: State, subject: string, action: string, resource: ResourceRef)
    ensures Check(s, subject, action, resource).Err? <==> !Complete(subject, subject, action, resource)
    ensures Check(s, subject, action, resource) == Ok(true) <==>
              && Complete(subject, subject, action, resource) && resource.resourceType in s.policies
              && ((resource in s.owners && s.owners[resource] == subject) || GrantKey(subject, action, resource) in s.active)
  {
  }
}
