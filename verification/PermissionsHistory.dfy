/**
 What the append-only history says about the live permission state.

 A run is any sequence of calls, denied and failing ones included.  In every
 state a run reaches, the history alone determines grants, owners and access
 decisions, and every grant traces back to the resource's owner.
 */
module PermissionsHistory {
  import opened Wrappers
  import opened Scopes
  import opened Permissions

  datatype Call =
    | GrantCall(grantReq: GrantRequest, now: int)
    | RevokeCall(revokeReq: RevokeRequest, now: int)
    | DefinePolicyCall(resourceType: string)

  function Apply(s: State, call: Call): State {
    match call
    case GrantCall(req, now) => AfterGrant(s, req, now)
    case RevokeCall(req, now) => AfterRevoke(s, req, now)
    case DefinePolicyCall(resourceType) => AfterDefinePolicy(s, resourceType)
  }

  function Run(s: State, calls: seq<Call>): State
    decreases |calls|
  {
    if calls == [] then s else Run(Apply(s, calls[0]), calls[1..])
  }

  // ----- Replaying the history -----

  datatype Replayed = Replayed(active: map<GrantKey, Grant>, owners: map<ResourceRef, string>)

  function EntryKey(h: HistoryEntry): GrantKey {
    GrantKey(h.subject, h.action, h.resource)
  }

  function EntryGrant(h: HistoryEntry): Grant {
    Grant(h.grantor, h.subject, h.action, h.resource, h.scope, h.atUnix)
  }

  predicate AllowedGrant(h: HistoryEntry) {
    h.eventType.GrantEvent? && h.outcome.Allowed?
  }

  function ReplayEntry(r: Replayed, h: HistoryEntry): Replayed {
    if h.outcome.Denied? then r
    else if h.eventType.RevokeEvent? then r.(active := r.active - {EntryKey(h)})
    else Replayed(r.active[EntryKey(h) := EntryGrant(h)],
                  if h.resource in r.owners then r.owners else r.owners[h.resource := h.grantor])
  }

  function Replay(history: seq<HistoryEntry>): Replayed {
    if history == [] then Replayed(map[], map[])
    else ReplayEntry(Replay(history[..|history| - 1]), history[|history| - 1])
  }

  ghost predicate Explained(s: State) {
    Replay(s.history) == Replayed(s.active, s.owners)
  }

  lemma ReplayAppend(history: seq<HistoryEntry>, h: HistoryEntry)
    ensures Replay(history + [h]) == ReplayEntry(Replay(history), h)
  {
    assert (history + [h])[..|history|] == history;
  }

  lemma ApplyExplained(s: State, call: Call)
    requires Explained(s)
    ensures Explained(Apply(s, call))
  {
    var s' := Apply(s, call);
    if s'.history != s.history {
      ReplayAppend(s.history, s'.history[|s'.history| - 1]);
    }
  }

  /** Active grants and owners are exactly what replaying the allowed history entries produces. */
  lemma {:induction false} HistoryExplainsState(s: State, calls: seq<Call>)
    requires Explained(s)
    ensures Explained(Run(s, calls))
    decreases |calls|
  {
    if calls != [] {
      ApplyExplained(s, calls[0]);
      HistoryExplainsState(Apply(s, calls[0]), calls[1..]);
    }
  }

  lemma HistoryExplainsEveryRun(calls: seq<Call>)
    ensures Explained(Run(EmptyState, calls))
  {
    HistoryExplainsState(EmptyState, calls);
  }

  // ----- Owners and access decisions, read off the history -----

  /** Grantor of the first allowed grant on the resource. */
  function FirstGrantor(history: seq<HistoryEntry>, r: ResourceRef): Option<string> {
    if history == [] then None
    else if AllowedGrant(history[0]) && history[0].resource == r then Some(history[0].grantor)
    else FirstGrantor(history[1..], r)
  }

  /** Whether the last allowed entry about this grant is the granting one. */
  function LastAllowedIsGrant(history: seq<HistoryEntry>, key: GrantKey): bool {
    if history == [] then false
    else
      var last := history[|history| - 1];
      if last.outcome.Allowed? && EntryKey(last) == key then last.eventType.GrantEvent?
      else LastAllowedIsGrant(history[..|history| - 1], key)
  }

  lemma {:induction false} FirstGrantorAppend(history: seq<HistoryEntry>, h: HistoryEntry, r: ResourceRef)
    ensures FirstGrantor(history + [h], r) ==
            if FirstGrantor(history, r).Some? then FirstGrantor(history, r)
            else if AllowedGrant(h) && h.resource == r then Some(h.grantor) else None
    decreases |history|
  {
    if history == [] {
      assert ([h])[1..] == [];
    } else {
      assert (history + [h])[1..] == history[1..] + [h];
      FirstGrantorAppend(history[1..], h, r);
    }
  }

  lemma {:induction false} ReplayMeaning(history: seq<HistoryEntry>, key: GrantKey)
    ensures key in Replay(history).active <==> LastAllowedIsGrant(history, key)
    ensures FirstGrantor(history, key.resource) ==
            if key.resource in Replay(history).owners then Some(Replay(history).owners[key.resource]) else None
    decreases |history|
  {
    if history != [] {
      var front, last := history[..|history| - 1], history[|history| - 1];
      assert history == front + [last];
      ReplayMeaning(front, key);
      FirstGrantorAppend(front, last, key.resource);
    }
  }

  /**
   Access decisions need nothing but the history and the registered types: a
   subject has access iff it made the first allowed grant on the resource, or
   the last allowed entry about its own grant granted it.
   */
  lemma AccessReadsOffHistory(calls: seq<Call>, subject: string, action: string, resource: ResourceRef)
    ensures var s := Run(EmptyState, calls);
            Check(s, subject, action, resource) == Ok(true) <==>
              subject != "" && action != "" && ValidResource(resource) && resource.resourceType in s.policies &&
              (FirstGrantor(s.history, resource) == Some(subject) ||
               LastAllowedIsGrant(s.history, GrantKey(subject, action, resource)))
  {
    HistoryExplainsEveryRun(calls);
    ReplayMeaning(Run(EmptyState, calls).history, GrantKey(subject, action, resource));
  }

  /** Once a resource has an owner, no later call changes it. */
  lemma {:induction false} OwnerIsPermanent(s: State, calls: seq<Call>, r: ResourceRef)
    requires r in s.owners
    ensures r in Run(s, calls).owners && Run(s, calls).owners[r] == s.owners[r]
    decreases |calls|
  {
    if calls != [] {
      OwnerIsPermanent(Apply(s, calls[0]), calls[1..], r);
    }
  }

  // ----- Delegation -----

  /**
   `path` lists history positions of allowed grants for one action and resource.
   It starts with a grant by the owner, each later grantor is the subject of the
   grant before, and no scope exceeds the one before it.
   */
  ghost predicate DelegationPath(history: seq<HistoryEntry>, path: seq<nat>, owner: string, i: nat) {
    && |path| > 0 && path[|path| - 1] == i
    && (forall k :: 0 <= k < |path| ==> path[k] < |history| && AllowedGrant(history[path[k]]))
    && history[path[0]].grantor == owner
    && (forall k :: 0 < k < |path| ==> Delegates(history, path[k - 1], path[k]))
  }

  predicate Delegates(history: seq<HistoryEntry>, i: nat, j: nat)
    requires i < |history| && j < |history|
  {
    && i < j
    && history[i].subject == history[j].grantor
    && history[i].action == history[j].action && history[i].resource == history[j].resource
    && ScopeAtLeast(history[i].scope, history[j].scope)
  }

  ghost predicate Traced(history: seq<HistoryEntry>, owners: map<ResourceRef, string>, i: nat)
    requires i < |history|
  {
    history[i].resource in owners &&
    exists path :: DelegationPath(history, path, owners[history[i].resource], i)
  }

  /** Position `i` of the history is the allowed grant `g`. */
  predicate GrantedAt(history: seq<HistoryEntry>, g: Grant, i: nat) {
    i < |history| && AllowedGrant(history[i]) && EntryGrant(history[i]) == g
  }

  ghost predicate ActiveRecorded(active: map<GrantKey, Grant>, history: seq<HistoryEntry>) {
    forall key :: key in active ==> KeyOf(active[key]) == key && exists i: nat :: GrantedAt(history, active[key], i)
  }

  ghost predicate Delegated(s: State) {
    && (forall i :: 0 <= i < |s.history| && AllowedGrant(s.history[i]) ==> Traced(s.history, s.owners, i))
    && ActiveRecorded(s.active, s.history)
  }

  lemma PathSurvives(history: seq<HistoryEntry>, h: HistoryEntry, path: seq<nat>, owner: string, i: nat)
    requires DelegationPath(history, path, owner, i)
    ensures DelegationPath(history + [h], path, owner, i)
  {
    forall k | 0 < k < |path| ensures Delegates(history + [h], path[k - 1], path[k]) {
      assert Delegates(history, path[k - 1], path[k]);
    }
  }

  lemma TracesSurvive(s: State, s': State, h: HistoryEntry)
    requires Delegated(s) && s'.history == s.history + [h]
    requires forall r :: r in s.owners ==> r in s'.owners && s'.owners[r] == s.owners[r]
    ensures forall i :: 0 <= i < |s.history| && AllowedGrant(s.history[i]) ==> Traced(s'.history, s'.owners, i)
  {
    forall i | 0 <= i < |s.history| && AllowedGrant(s.history[i]) ensures Traced(s'.history, s'.owners, i) {
      var owner := s.owners[s.history[i].resource];
      assert Traced(s.history, s.owners, i);
      var path :| DelegationPath(s.history, path, owner, i);
      PathSurvives(s.history, h, path, owner, i);
    }
  }

  lemma PathExtends(history: seq<HistoryEntry>, path: seq<nat>, owner: string, i: nat, n: nat)
    requires DelegationPath(history, path, owner, i)
    requires i < n < |history| && AllowedGrant(history[n]) && Delegates(history, i, n)
    ensures DelegationPath(history, path + [n], owner, n)
  {
    var longer := path + [n];
    forall k | 0 < k < |longer| ensures Delegates(history, longer[k - 1], longer[k]) {
      if k < |path| {
        assert Delegates(history, path[k - 1], path[k]);
      }
    }
  }

  /** The grant a non-owner builds on is on record and traced; the new grant extends its path. */
  lemma HeldGrantExtends(history: seq<HistoryEntry>, owners: map<ResourceRef, string>, held: Grant, h: HistoryEntry)
    requires exists i: nat :: GrantedAt(history, held, i)
    requires forall i :: 0 <= i < |history| && AllowedGrant(history[i]) ==> Traced(history, owners, i)
    requires AllowedGrant(h) && held.subject == h.grantor && held.action == h.action && held.resource == h.resource
    requires ScopeAtLeast(held.scope, h.scope)
    ensures Traced(history + [h], owners, |history|)
  {
    var i: nat :| GrantedAt(history, held, i);
    var owner := owners[history[i].resource];
    var path :| DelegationPath(history, path, owner, i);
    PathSurvives(history, h, path, owner, i);
    PathExtends(history + [h], path, owner, i, |history|);
  }

  /** An allowed grant extends the grantor's own path, or starts one. */
  lemma NewGrantTraced(s: State, req: GrantRequest, now: int)
    requires Delegated(s) && AuthorizeGrant(s, req).Allowed?
    ensures Traced(s.history + [GrantEntry(req, now, Allowed)], PutGrant(s, GrantOf(req, now)).owners, |s.history|)
  {
    var history := s.history + [GrantEntry(req, now, Allowed)];
    var owner := PutGrant(s, GrantOf(req, now)).owners[req.resource];
    if owner == req.grantor {
      assert DelegationPath(history, [|s.history|], owner, |s.history|);
    } else {
      var key := GrantKey(req.grantor, req.action, req.resource);
      assert KeyOf(s.active[key]) == key;
      HeldGrantExtends(s.history, s.owners, s.active[key], GrantEntry(req, now, Allowed));
    }
  }

  lemma RecordSurvives(history: seq<HistoryEntry>, h: HistoryEntry, active: map<GrantKey, Grant>)
    requires ActiveRecorded(active, history)
    ensures ActiveRecorded(active, history + [h])
  {
    forall key | key in active ensures exists i: nat :: GrantedAt(history + [h], active[key], i) {
      var i: nat :| GrantedAt(history, active[key], i);
      assert GrantedAt(history + [h], active[key], i);
    }
  }

  lemma ApplyRecorded(s: State, call: Call)
    requires ActiveRecorded(s.active, s.history)
    ensures ActiveRecorded(Apply(s, call).active, Apply(s, call).history)
  {
    var s' := Apply(s, call);
    if s'.history != s.history {
      var h := s'.history[|s.history|];
      assert s'.history == s.history + [h];
      RecordSurvives(s.history, h, s.active);
      if AllowedGrant(h) {
        assert GrantedAt(s'.history, EntryGrant(h), |s.history|);
      }
    }
  }

  /** The entry a call adds, if it is an allowed grant. */
  lemma LastGrantTraced(s: State, call: Call)
    requires Delegated(s) && |Apply(s, call).history| > |s.history| && AllowedGrant(Apply(s, call).history[|s.history|])
    ensures Traced(Apply(s, call).history, Apply(s, call).owners, |s.history|)
  {
    NewGrantTraced(s, call.grantReq, call.now);
  }

  /** What a call does to history and owners. */
  lemma ApplyShape(s: State, call: Call)
    ensures var s' := Apply(s, call);
            && (s'.history == s.history || (|s'.history| == |s.history| + 1 && s'.history == s.history + [s'.history[|s.history|]]))
            && forall r :: r in s.owners ==> r in s'.owners && s'.owners[r] == s.owners[r]
  {
  }

  /** Every path is there still, and the new entry has one if it needs one. */
  lemma TracesGoOn(s: State, s': State)
    requires Delegated(s)
    requires s'.history == s.history || (|s'.history| == |s.history| + 1 && s'.history == s.history + [s'.history[|s.history|]])
    requires forall r :: r in s.owners ==> r in s'.owners && s'.owners[r] == s.owners[r]
    requires |s'.history| > |s.history| && AllowedGrant(s'.history[|s.history|]) ==> Traced(s'.history, s'.owners, |s.history|)
    ensures forall i :: 0 <= i < |s'.history| && AllowedGrant(s'.history[i]) ==> Traced(s'.history, s'.owners, i)
  {
    if |s'.history| > |s.history| {
      TracesSurvive(s, s', s'.history[|s.history|]);
    }
  }

  lemma ApplyDelegated(s: State, call: Call)
    requires Delegated(s)
    ensures Delegated(Apply(s, call))
  {
    ApplyRecorded(s, call);
    ApplyShape(s, call);
    var s' := Apply(s, call);
    if |s'.history| > |s.history| && AllowedGrant(s'.history[|s.history|]) {
      LastGrantTraced(s, call);
    }
    TracesGoOn(s, s');
  }

  lemma {:induction false} RunDelegated(s: State, calls: seq<Call>)
    requires Delegated(s)
    ensures Delegated(Run(s, calls))
    decreases |calls|
  {
    if calls != [] {
      ApplyDelegated(s, calls[0]);
      RunDelegated(Apply(s, calls[0]), calls[1..]);
    }
  }

  /** Scopes only shrink along a path, so its first grant covers its last. */
  lemma {:induction false} PathBounds(history: seq<HistoryEntry>, path: seq<nat>, owner: string, i: nat, k: nat)
    requires DelegationPath(history, path, owner, i) && k < |path|
    ensures path[0] <= path[k]
    ensures k > 0 ==> path[0] < path[k]
    ensures history[path[0]].action == history[path[k]].action
    ensures history[path[0]].resource == history[path[k]].resource
    ensures ScopeAtLeast(history[path[0]].scope, history[path[k]].scope)
    decreases k
  {
    if k > 0 {
      PathBounds(history, path, owner, i, k - 1);
      assert Delegates(history, path[k - 1], path[k]);
      ScopePreorder(history[path[0]].scope, history[path[k - 1]].scope, history[path[k]].scope);
    }
  }

  /** Entry `j` is an earlier grant by the owner that covers entry `i`. */
  predicate CoveredBy(history: seq<HistoryEntry>, owner: string, j: nat, i: nat) {
    && j < i < |history| && AllowedGrant(history[j]) && history[j].grantor == owner
    && history[j].action == history[i].action && history[j].resource == history[i].resource
    && ScopeAtLeast(history[j].scope, history[i].scope)
  }

  lemma TracedIsCovered(history: seq<HistoryEntry>, owners: map<ResourceRef, string>, i: nat)
    requires i < |history| && Traced(history, owners, i)
    ensures var owner := owners[history[i].resource];
            history[i].grantor == owner || exists j: nat :: CoveredBy(history, owner, j, i)
  {
    var owner := owners[history[i].resource];
    var path :| DelegationPath(history, path, owner, i);
    PathBounds(history, path, owner, i, |path| - 1);
    assert AllowedGrant(history[path[0]]);
    assert |path| == 1 || CoveredBy(history, owner, path[0], i);
  }

  /**
   No grant exceeds what the owner gave: an allowed grant by anyone else is
   preceded by an allowed grant of the owner, for the same action and resource,
   with a scope at least as great.
   */
  lemma GrantsComeFromTheOwner(calls: seq<Call>, i: nat)
    requires i < |Run(EmptyState, calls).history| && AllowedGrant(Run(EmptyState, calls).history[i])
    ensures var s := Run(EmptyState, calls); var h := s.history[i];
            h.resource in s.owners &&
            (h.grantor == s.owners[h.resource] || exists j: nat :: CoveredBy(s.history, s.owners[h.resource], j, i))
  {
    RunDelegated(EmptyState, calls);
    var s := Run(EmptyState, calls);
    assert Traced(s.history, s.owners, i);
    TracedIsCovered(s.history, s.owners, i);
  }
}
