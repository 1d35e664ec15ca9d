/**
 Signing out everywhere: when RevokeAllSessions leaves an identity without sessions.

 The call deletes the sessions of an identity and moves no generation, so a
 request that is already on its way can still commit.  Whether one can is decided
 by `Promising`, which looks at the requests in flight at that moment only.
 */
module SessionRevocation {
  import opened Wrappers
  import opened SessionStores
  import opened SessionProtocol
  import opened SessionSafety
  import opened SessionTheorems

  ghost predicate HasSession(s: State, identity: string) {
    exists token :: token in s.table.sessions && s.table.sessions[token].identityRef == identity
  }

  /** Nobody starts another IssueSession for the identity. */
  ghost predicate NoneBegins(steps: seq<Step>, identity: string) {
    forall i :: 0 <= i < |steps| && steps[i].BeginIssue? ==> steps[i].req.identityRef != identity
  }

  /** Request `tid` is a RevokeAllSessions of the identity about to delete its sessions. */
  predicate RevokesAll(s: State, tid: nat, identity: string) {
    && Enabled(s, Act(tid)) && s.threads[tid].call.RevokeAllSessions?
    && s.threads[tid].tpc.session.identityRef == identity
  }

  // ----- What is stored afterwards is new -----

  lemma {:induction false} RunGrows(verify: Verifier, s: State, steps: seq<Step>)
    requires Runnable(verify, s, steps) && Inv(verify, s)
    ensures Grows(s.hist, Run(verify, s, steps).hist)
    decreases |steps|
  {
    if steps != [] {
      StepGrows(verify, s, steps[0]);
      StepKeepsInv(verify, s, steps[0]);
      RunGrows(verify, Apply(verify, s, steps[0]), steps[1..]);
    }
  }

  lemma RevokedAtOnce(verify: Verifier, s: State, tid: nat, identity: string)
    requires RevokesAll(s, tid, identity)
    ensures !HasSession(Apply(verify, s, Act(tid)), identity)
  {
  }

  lemma OldOriginsAreGone(verify: Verifier, s: State, identity: string, token: string)
    requires Inv(verify, s) && !HasSession(s, identity)
    requires token in s.hist.origins && s.hist.origins[token].device.identityRef == identity
    ensures token !in s.table.sessions
  {
    assert token in s.table.sessions ==> GoodSession(s.hist, token, s.table.sessions[token]);
  }

  /** Every session of the identity stored at any time after RevokeAllSessions was committed after it. */
  lemma LaterSessionsAreNew(verify: Verifier, before: seq<Step>, tid: nat, after: seq<Step>, identity: string, token: string)
    requires Runnable(verify, Init, before) && RevokesAll(Run(verify, Init, before), tid, identity)
    requires Runnable(verify, Apply(verify, Run(verify, Init, before), Act(tid)), after)
    ensures var s := Apply(verify, Run(verify, Init, before), Act(tid));
            var s' := Run(verify, s, after);
            token in s'.table.sessions && s'.table.sessions[token].identityRef == identity ==>
              token in s'.hist.origins && token !in s.hist.origins
  {
    var s0 := Run(verify, Init, before);
    var s := Apply(verify, s0, Act(tid));
    var s' := Run(verify, s, after);
    RunKeepsInv(verify, Init, before);
    StepKeepsInv(verify, s0, Act(tid));
    RunKeepsInv(verify, s, after);
    RunGrows(verify, s, after);
    RevokedAtOnce(verify, s0, tid, identity);
    if token in s'.table.sessions && s'.table.sessions[token].identityRef == identity {
      assert GoodSession(s'.hist, token, s'.table.sessions[token]);
      if token in s.hist.origins {
        OldOriginsAreGone(verify, s, identity, token);
        DeletedStaysDeleted(verify, s, after, token);
      }
    }
  }

  // ----- Requests in flight that can still commit -----

  /** The captured generation is still the device's. */
  predicate Current(s: State, t: Thread, c: Capture)
    requires t.Issuing?
  {
    Generation(s.table, RequestDevice(t.req)) == c.observed
  }

  /** The request's nonce is good, or has never been given out. */
  predicate NonceHopeful(s: State, t: Thread)
    requires t.Issuing?
  {
    NonceValid(s.nonces, t.req.nonce, RequestDevice(t.req), t.now) ||
    (t.req.nonce !in s.hist.challenges && t.req.identityRef != "" && t.req.deviceId != "")
  }

  predicate ProofFits(verify: Verifier, key: string, req: IssueRequest) {
    verify(key, SessionMessage(req), req.proof)
  }

  /** The device is bound to a key the proof verifies under, or was never bound and such a key exists. */
  ghost predicate DeviceHopeful(verify: Verifier, s: State, t: Thread)
    requires t.Issuing?
  {
    var d := RequestDevice(t.req);
    if d in s.bound then ProofFits(verify, s.bound[d], t.req)
    else DeviceBound(d) !in s.hist.trace && exists key :: ProofFits(verify, key, t.req)
  }

  ghost predicate CanCommit(verify: Verifier, s: State, t: Thread)
    requires t.Issuing?
  {
    match t.pc
    case Begun => NonceHopeful(s, t) && DeviceHopeful(verify, s, t)
    case Captured(c) => Current(s, t, c) && NonceHopeful(s, t) && DeviceHopeful(verify, s, t)
    case Peeked(c) => Current(s, t, c) && NonceHopeful(s, t) && DeviceHopeful(verify, s, t)
    case Resolved(c, r) => Current(s, t, c) && NonceHopeful(s, t) && ProofFits(verify, r.key, t.req)
    case Verified(c, r) => Current(s, t, c) && NonceHopeful(s, t)
    case Consumed(c, r) => Current(s, t, c)
    case _ => false
  }

  /** Request `tid` issues for the identity and nothing that has happened stands in its way. */
  ghost predicate Promising(verify: Verifier, s: State, tid: nat, identity: string) {
    IssuingAt(s, tid) && s.threads[tid].req.identityRef == identity && CanCommit(verify, s, s.threads[tid])
  }

  // ----- A request that cannot commit never can -----

  /** A stale capture stays stale: generations only grow. */
  lemma StaysStale(verify: Verifier, s: State, step: Step, tid: nat, t: Thread, c: Capture)
    requires Enabled(s, step) && GenerationsInv(s) && t.Issuing? && GoodCapture(s.hist, RequestDevice(t.req), tid, c)
    requires !Current(s, t, c)
    ensures !Current(Apply(verify, s, step), t, c)
  {
    EqualCounts(s.hist.trace, RequestDevice(t.req), c.at);
    GenerationStep(verify, s, step, RequestDevice(t.req));
  }

  lemma NonceStaysHopeless(verify: Verifier, s: State, step: Step, t: Thread)
    requires Enabled(s, step) && t.Issuing? && !NonceHopeful(s, t)
    ensures !NonceHopeful(Apply(verify, s, step), t)
  {
  }

  lemma DeviceStaysHopeless(verify: Verifier, s: State, step: Step, t: Thread)
    requires Enabled(s, step) && DevicesInv(s) && t.Issuing? && !DeviceHopeful(verify, s, t)
    ensures !DeviceHopeful(verify, Apply(verify, s, step), t)
  {
  }

  predicate EarlyPc(pc: IssuePc) {
    pc.Begun? || pc.Captured? || pc.Peeked?
  }

  predicate LatePc(pc: IssuePc) {
    pc.Resolved? || pc.Verified? || pc.Consumed?
  }

  /** A step of somebody else. */
  lemma OthersGiveNoHope(verify: Verifier, s: State, step: Step, tid: nat, t: Thread)
    requires Enabled(s, step) && Inv(verify, s) && tid in s.threads && s.threads[tid] == t && t.Issuing?
    requires !CanCommit(verify, s, t)
    ensures !CanCommit(verify, Apply(verify, s, step), t)
  {
    assert GoodThread(verify, s.hist, tid, t);
    if EarlyPc(t.pc) || LatePc(t.pc) {
      if !t.pc.Begun? && !Current(s, t, t.pc.c) {
        StaysStale(verify, s, step, tid, t, t.pc.c);
      } else if !t.pc.Consumed? && !NonceHopeful(s, t) {
        NonceStaysHopeless(verify, s, step, t);
      } else if EarlyPc(t.pc) {
        DeviceStaysHopeless(verify, s, step, t);
      }
    }
  }

  /** Reading a generation or resolving a device changes nothing about device or nonce. */
  lemma DeviceStaysAsHopeful(verify: Verifier, s: State, step: Step, t: Thread)
    requires Enabled(s, step) && (step.ReadGeneration? || step.ResolveDevice?) && t.Issuing?
    ensures var s' := Apply(verify, s, step);
            && s'.table == s.table && s'.bound == s.bound && NonceHopeful(s', t) == NonceHopeful(s, t)
            && DeviceHopeful(verify, s', t) == DeviceHopeful(verify, s, t)
  {
  }

  /** A step of its own, before and after its device is resolved. */
  lemma EarlyStepGivesNoHope(verify: Verifier, s: State, step: Step, tid: nat)
    requires Enabled(s, step) && (step.ReadGeneration? || step.PeekNonce? || step.ResolveDevice?)
    requires step.tid == tid && !CanCommit(verify, s, s.threads[tid])
    ensures IssuingAt(Apply(verify, s, step), tid) && !CanCommit(verify, Apply(verify, s, step), Apply(verify, s, step).threads[tid])
  {
    if !step.PeekNonce? {
      DeviceStaysAsHopeful(verify, s, step, s.threads[tid]);
    }
  }

  lemma LateStepGivesNoHope(verify: Verifier, s: State, step: Step, tid: nat)
    requires Enabled(s, step) && (step.VerifyProof? || step.ConsumeNonce? || step.Commit? || step.EmitIssued?)
    requires step.tid == tid && !CanCommit(verify, s, s.threads[tid])
    ensures IssuingAt(Apply(verify, s, step), tid) && !CanCommit(verify, Apply(verify, s, step), Apply(verify, s, step).threads[tid])
  {
  }

  ghost predicate Hopeless(verify: Verifier, s: State, identity: string) {
    !HasSession(s, identity) && forall tid :: !Promising(verify, s, tid, identity)
  }

  lemma ThreadStaysHopeless(verify: Verifier, s: State, step: Step, identity: string, tid: nat)
    requires Enabled(s, step) && Inv(verify, s) && !Promising(verify, s, tid, identity)
    requires step.BeginIssue? ==> step.req.identityRef != identity
    ensures !Promising(verify, Apply(verify, s, step), tid, identity)
  {
    var s' := Apply(verify, s, step);
    if IssuingAt(s', tid) {
      if Actor(step) != Some(tid) {
        OthersUnchanged(verify, s, step, tid);
        if s.threads[tid].req.identityRef == identity {
          OthersGiveNoHope(verify, s, step, tid, s.threads[tid]);
        }
      } else if !step.BeginIssue? && s.threads[tid].req.identityRef == identity {
        if step.ReadGeneration? || step.PeekNonce? || step.ResolveDevice? {
          EarlyStepGivesNoHope(verify, s, step, tid);
        } else {
          LateStepGivesNoHope(verify, s, step, tid);
        }
      }
    }
  }

  lemma NoSessionAppears(verify: Verifier, s: State, step: Step, identity: string)
    requires Enabled(s, step) && Hopeless(verify, s, identity)
    ensures !HasSession(Apply(verify, s, step), identity)
  {
    var s' := Apply(verify, s, step);
    assert step.Commit? ==> !Promising(verify, s, step.tid, identity);
    if HasSession(s', identity) {
      var token :| token in s'.table.sessions && s'.table.sessions[token].identityRef == identity;
      StoredBefore(verify, s, step, token);
    }
  }

  lemma {:induction false} StaysHopeless(verify: Verifier, s: State, steps: seq<Step>, identity: string)
    requires Runnable(verify, s, steps) && Inv(verify, s) && Hopeless(verify, s, identity) && NoneBegins(steps, identity)
    ensures Hopeless(verify, Run(verify, s, steps), identity)
    decreases |steps|
  {
    if steps != [] {
      var s' := Apply(verify, s, steps[0]);
      NoSessionAppears(verify, s, steps[0], identity);
      forall tid ensures !Promising(verify, s', tid, identity) {
        ThreadStaysHopeless(verify, s, steps[0], identity, tid);
      }
      StepKeepsInv(verify, s, steps[0]);
      assert forall i :: 0 <= i < |steps[1..]| ==> steps[1..][i] == steps[i + 1];
      StaysHopeless(verify, s', steps[1..], identity);
    }
  }

  // ----- A request that can commit has a way to -----

  ghost predicate HasDeviceSession(s: State, d: Device) {
    exists token :: token in s.table.sessions && DeviceOf(s.table.sessions[token]) == d
  }

  /** Nobody starts another IssueSession. */
  ghost predicate StartsNothing(steps: seq<Step>) {
    forall i :: 0 <= i < |steps| ==> !steps[i].BeginIssue?
  }

  /** The requests in flight can go on in such a way that the device gets a session. */
  ghost predicate DeviceSessionCanCome(verify: Verifier, s: State, d: Device) {
    exists steps :: Runnable(verify, s, steps) && StartsNothing(steps) && HasDeviceSession(Run(verify, s, steps), d)
  }

  /** Request `tid` issues for the device and nothing that has happened stands in its way. */
  ghost predicate Promises(verify: Verifier, s: State, tid: nat, d: Device) {
    IssuingAt(s, tid) && RequestDevice(s.threads[tid].req) == d && CanCommit(verify, s, s.threads[tid])
  }

  lemma GoOn(verify: Verifier, s: State, step: Step, d: Device)
    requires Enabled(s, step) && !step.BeginIssue? && DeviceSessionCanCome(verify, Apply(verify, s, step), d)
    ensures DeviceSessionCanCome(verify, s, d)
  {
    var steps :| Runnable(verify, Apply(verify, s, step), steps) && StartsNothing(steps) &&
                 HasDeviceSession(Run(verify, Apply(verify, s, step), steps), d);
    var all := [step] + steps;
    assert all[1..] == steps;
    assert forall i :: 0 < i < |all| ==> all[i] == steps[i - 1];
    assert Runnable(verify, s, all) && StartsNothing(all) && HasDeviceSession(Run(verify, s, all), d);
  }

  /** No finite set of tokens is all of them. */
  lemma {:induction false} LongestToken(used: set<string>) returns (n: nat)
    ensures forall token :: token in used ==> |token| <= n
    decreases |used|
  {
    if used == {} {
      n := 0;
    } else {
      var token :| token in used;
      n := LongestToken(used - {token});
      n := if n < |token| then |token| else n;
    }
  }

  lemma Commits(verify: Verifier, s: State, tid: nat, d: Device)
    requires Promises(verify, s, tid, d) && s.threads[tid].pc.Consumed?
    ensures DeviceSessionCanCome(verify, s, d)
  {
    var n := LongestToken(s.hist.origins.Keys);
    var token := seq(n + 1, _ => 'x');
    assert |token| == n + 1;
    var step := Commit(tid, token);
    var s' := Apply(verify, s, step);
    assert token in s'.table.sessions && DeviceOf(s'.table.sessions[token]) == d;
    assert Runnable(verify, s', []) && StartsNothing([]) && HasDeviceSession(Run(verify, s', []), d);
    GoOn(verify, s, step, d);
  }

  predicate HasNonce(s: State, t: Thread)
    requires t.Issuing?
  {
    NonceValid(s.nonces, t.req.nonce, RequestDevice(t.req), t.now)
  }

  /** The challenge that gives the request the nonce it names. */
  function TheChallenge(t: Thread): Step
    requires t.Issuing?
  {
    Challenge(RequestDevice(t.req), t.req.nonce, t.now)
  }

  lemma ChallengeHelps(verify: Verifier, s: State, tid: nat, d: Device)
    requires Promises(verify, s, tid, d) && NonceHopeful(s, s.threads[tid]) && !HasNonce(s, s.threads[tid])
    ensures Enabled(s, TheChallenge(s.threads[tid]))
    ensures var s' := Apply(verify, s, TheChallenge(s.threads[tid]));
            Promises(verify, s', tid, d) && s'.threads == s.threads && HasNonce(s', s.threads[tid]) && s'.bound == s.bound
  {
  }

  lemma BindHelps(verify: Verifier, s: State, tid: nat, d: Device, key: string)
    requires Promises(verify, s, tid, d) && DeviceHopeful(verify, s, s.threads[tid])
    requires RequestDevice(s.threads[tid].req) !in s.bound && ProofFits(verify, key, s.threads[tid].req)
    ensures Enabled(s, Bind(RequestDevice(s.threads[tid].req), key))
    ensures var s' := Apply(verify, s, Bind(RequestDevice(s.threads[tid].req), key));
            Promises(verify, s', tid, d) && s'.threads == s.threads && RequestDevice(s.threads[tid].req) in s'.bound
  {
  }

  /** The next step of a request that nothing keeps waiting. */
  function NextStep(tid: nat, pc: IssuePc): Step
    requires EarlyPc(pc) || LatePc(pc)
  {
    match pc
    case Begun => ReadGeneration(tid, false)
    case Captured(_) => PeekNonce(tid)
    case Peeked(_) => ResolveDevice(tid, false)
    case Resolved(_, _) => VerifyProof(tid)
    case Verified(_, _) => ConsumeNonce(tid)
    case _ => Commit(tid, "")
  }

  function Rank(pc: IssuePc): nat {
    match pc
    case Begun => 5
    case Captured(_) => 4
    case Peeked(_) => 3
    case Resolved(_, _) => 2
    case Verified(_, _) => 1
    case _ => 0
  }

  lemma NextStepHelps(verify: Verifier, s: State, tid: nat, d: Device)
    requires Promises(verify, s, tid, d) && !s.threads[tid].pc.Consumed?
    requires s.threads[tid].pc.Captured? || s.threads[tid].pc.Verified? ==> HasNonce(s, s.threads[tid])
    requires s.threads[tid].pc.Peeked? ==> RequestDevice(s.threads[tid].req) in s.bound
    ensures Enabled(s, NextStep(tid, s.threads[tid].pc))
    ensures var s' := Apply(verify, s, NextStep(tid, s.threads[tid].pc));
            Promises(verify, s', tid, d) && Rank(s'.threads[tid].pc) < Rank(s.threads[tid].pc)
  {
  }

  lemma {:induction false} DevicePromiseKept(verify: Verifier, s: State, tid: nat, d: Device)
    requires Promises(verify, s, tid, d)
    ensures DeviceSessionCanCome(verify, s, d)
    decreases Rank(s.threads[tid].pc), if HasNonce(s, s.threads[tid]) then 0 else 1,
              if RequestDevice(s.threads[tid].req) in s.bound then 0 else 1
  {
    var t := s.threads[tid];
    if t.pc.Consumed? {
      Commits(verify, s, tid, d);
    } else if !HasNonce(s, t) {
      ChallengeHelps(verify, s, tid, d);
      DevicePromiseKept(verify, Apply(verify, s, TheChallenge(t)), tid, d);
      GoOn(verify, s, TheChallenge(t), d);
    } else if t.pc.Peeked? && RequestDevice(t.req) !in s.bound {
      var key :| ProofFits(verify, key, t.req);
      BindHelps(verify, s, tid, d, key);
      var step := Bind(RequestDevice(t.req), key);
      DevicePromiseKept(verify, Apply(verify, s, step), tid, d);
      GoOn(verify, s, step, d);
    } else {
      NextStepHelps(verify, s, tid, d);
      var step := NextStep(tid, t.pc);
      DevicePromiseKept(verify, Apply(verify, s, step), tid, d);
      GoOn(verify, s, step, d);
    }
  }

  /** Some continuation without new requests of the identity stores a session of it. */
  ghost predicate SessionCanCome(verify: Verifier, s: State, identity: string) {
    exists steps :: Runnable(verify, s, steps) && NoneBegins(steps, identity) && HasSession(Run(verify, s, steps), identity)
  }

  lemma PromisesCanBeKept(verify: Verifier, s: State, tid: nat, identity: string)
    requires Promising(verify, s, tid, identity)
    ensures SessionCanCome(verify, s, identity)
  {
    var d := RequestDevice(s.threads[tid].req);
    DevicePromiseKept(verify, s, tid, d);
    var steps :| Runnable(verify, s, steps) && StartsNothing(steps) && HasDeviceSession(Run(verify, s, steps), d);
    var s' := Run(verify, s, steps);
    var token :| token in s'.table.sessions && DeviceOf(s'.table.sessions[token]) == d;
    assert s'.table.sessions[token].identityRef == identity;
    assert NoneBegins(steps, identity) && HasSession(s', identity);
  }

  /** Deleting the sessions of an identity helps and hinders no request. */
  lemma ActKeepsPromises(verify: Verifier, s: State, tid: nat, identity: string, t: nat)
    requires RevokesAll(s, tid, identity)
    ensures Promising(verify, Apply(verify, s, Act(tid)), t, identity) <==> Promising(verify, s, t, identity)
  {
  }

  /**
   Exactly when signing out everywhere is final: after RevokeAllSessions, and if
   the identity starts no further request, a session of it can still appear if
   and only if one of its requests in flight at that moment is promising.
   */
  lemma RevokeAllSufficesIff(verify: Verifier, before: seq<Step>, tid: nat, identity: string)
    requires Runnable(verify, Init, before) && RevokesAll(Run(verify, Init, before), tid, identity)
    ensures var s := Apply(verify, Run(verify, Init, before), Act(tid));
            SessionCanCome(verify, s, identity) <==> exists t :: Promising(verify, Run(verify, Init, before), t, identity)
  {
    var s0 := Run(verify, Init, before);
    var s := Apply(verify, s0, Act(tid));
    RunKeepsInv(verify, Init, before);
    StepKeepsInv(verify, s0, Act(tid));
    RevokedAtOnce(verify, s0, tid, identity);
    forall t ensures Promising(verify, s, t, identity) <==> Promising(verify, s0, t, identity) {
      ActKeepsPromises(verify, s0, tid, identity, t);
    }
    if exists t :: Promising(verify, s0, t, identity) {
      var t :| Promising(verify, s0, t, identity);
      PromisesCanBeKept(verify, s, t, identity);
    } else if SessionCanCome(verify, s, identity) {
      var steps :| Runnable(verify, s, steps) && NoneBegins(steps, identity) && HasSession(Run(verify, s, steps), identity);
      StaysHopeless(verify, s, steps, identity);
    }
  }

  /** None of the identity's requests is between its start and its commit. */
  ghost predicate NobodyIssuing(s: State, identity: string) {
    forall t :: IssuingAt(s, t) && s.threads[t].req.identityRef == identity ==> s.threads[t].pc.Stored? || s.threads[t].pc.Finished?
  }

  lemma QuietMeansHopeless(verify: Verifier, s: State, tid: nat, identity: string)
    requires RevokesAll(s, tid, identity) && NobodyIssuing(s, identity)
    ensures Hopeless(verify, Apply(verify, s, Act(tid)), identity)
  {
    var s' := Apply(verify, s, Act(tid));
    RevokedAtOnce(verify, s, tid, identity);
    forall t ensures !Promising(verify, s', t, identity) {
      assert IssuingAt(s', t) ==> t in s.threads && s'.threads[t] == s.threads[t] && IssuingAt(s, t);
    }
  }

  /** In particular signing out everywhere is final when none of the identity's requests is under way. */
  lemma QuietRevokeAllSuffices(verify: Verifier, before: seq<Step>, tid: nat, after: seq<Step>, identity: string)
    requires Runnable(verify, Init, before) && RevokesAll(Run(verify, Init, before), tid, identity)
    requires NobodyIssuing(Run(verify, Init, before), identity)
    requires Runnable(verify, Apply(verify, Run(verify, Init, before), Act(tid)), after) && NoneBegins(after, identity)
    ensures !HasSession(Run(verify, Apply(verify, Run(verify, Init, before), Act(tid)), after), identity)
  {
    var s0 := Run(verify, Init, before);
    RunKeepsInv(verify, Init, before);
    StepKeepsInv(verify, s0, Act(tid));
    QuietMeansHopeless(verify, s0, tid, identity);
    StaysHopeless(verify, Apply(verify, s0, Act(tid)), after, identity);
  }

  // ----- A device that was revoked after its sessions -----

  /** Request `tid` of the device has resolved it, and nothing else stands in its way. */
  ghost predicate PastLookup(verify: Verifier, s: State, tid: nat, d: Device) {
    Promises(verify, s, tid, d) && LatePc(s.threads[tid].pc)
  }

  /** The device is revoked, has no session, and no request of it can commit. */
  ghost predicate DeviceHopeless(verify: Verifier, s: State, d: Device) {
    DeviceRevoked(d) in s.hist.trace && !HasDeviceSession(s, d) && forall tid :: !Promises(verify, s, tid, d)
  }

  /** A revoked device is never resolved again. */
  lemma RevokedIsNotResolved(verify: Verifier, s: State, tid: nat, d: Device)
    requires DevicesInv(s) && DeviceRevoked(d) in s.hist.trace && Promises(verify, s, tid, d)
    ensures PastLookup(verify, s, tid, d)
  {
  }

  lemma StartsWithoutHope(verify: Verifier, s: State, step: Step, d: Device)
    requires Enabled(s, step) && step.BeginIssue? && DevicesInv(s) && DeviceRevoked(d) in s.hist.trace
    ensures !Promises(verify, Apply(verify, s, step), step.tid, d)
  {
  }

  lemma RequestStaysHopeless(verify: Verifier, s: State, step: Step, tid: nat, d: Device)
    requires Enabled(s, step) && Inv(verify, s) && DeviceRevoked(d) in s.hist.trace && !Promises(verify, s, tid, d)
    ensures !Promises(verify, Apply(verify, s, step), tid, d)
  {
    if IssuingAt(Apply(verify, s, step), tid) {
      if Actor(step) != Some(tid) {
        OthersUnchanged(verify, s, step, tid);
        if RequestDevice(s.threads[tid].req) == d {
          OthersGiveNoHope(verify, s, step, tid, s.threads[tid]);
        }
      } else if step.BeginIssue? {
        StartsWithoutHope(verify, s, step, d);
      } else if RequestDevice(s.threads[tid].req) == d {
        if step.ReadGeneration? || step.PeekNonce? || step.ResolveDevice? {
          EarlyStepGivesNoHope(verify, s, step, tid);
        } else {
          LateStepGivesNoHope(verify, s, step, tid);
        }
      }
    }
  }

  lemma NoDeviceSessionAppears(verify: Verifier, s: State, step: Step, d: Device)
    requires Enabled(s, step) && DeviceHopeless(verify, s, d)
    ensures !HasDeviceSession(Apply(verify, s, step), d)
  {
    var s' := Apply(verify, s, step);
    assert step.Commit? ==> !Promises(verify, s, step.tid, d);
    if HasDeviceSession(s', d) {
      var token :| token in s'.table.sessions && DeviceOf(s'.table.sessions[token]) == d;
      StoredBefore(verify, s, step, token);
    }
  }

  lemma {:induction false} DeviceStaysWithoutSession(verify: Verifier, s: State, steps: seq<Step>, d: Device)
    requires Runnable(verify, s, steps) && Inv(verify, s) && DeviceHopeless(verify, s, d)
    ensures !HasDeviceSession(Run(verify, s, steps), d)
    decreases |steps|
  {
    if steps != [] {
      var s' := Apply(verify, s, steps[0]);
      NoDeviceSessionAppears(verify, s, steps[0], d);
      forall tid ensures !Promises(verify, s', tid, d) {
        RequestStaysHopeless(verify, s, steps[0], tid, d);
      }
      TraceStep(verify, s, steps[0]);
      StepKeepsInv(verify, s, steps[0]);
      DeviceStaysWithoutSession(verify, s', steps[1..], d);
    }
  }

  /** The device has a session in some continuation, new requests included. */
  ghost predicate DeviceSessionPossible(verify: Verifier, s: State, d: Device) {
    exists steps :: Runnable(verify, s, steps) && HasDeviceSession(Run(verify, s, steps), d)
  }

  /**
   Exactly what revoking the sessions first and the device second leaves open:
   once the device is revoked, whoever asks for sessions later, it can have one
   if and only if one is stored or one of its requests is past the lookup with a
   current capture, a good nonce and a fitting proof.
   */
  lemma SessionsFirstSufficesIff(verify: Verifier, steps: seq<Step>, d: Device)
    requires Runnable(verify, Init, steps) && DeviceRevoked(d) in Run(verify, Init, steps).hist.trace
    ensures var s := Run(verify, Init, steps);
            DeviceSessionPossible(verify, s, d) <==> HasDeviceSession(s, d) || exists tid :: PastLookup(verify, s, tid, d)
  {
    var s := Run(verify, Init, steps);
    RunKeepsInv(verify, Init, steps);
    if HasDeviceSession(s, d) {
      assert Runnable(verify, s, []) && HasDeviceSession(Run(verify, s, []), d);
    } else if tid :| PastLookup(verify, s, tid, d) {
      DevicePromiseKept(verify, s, tid, d);
    } else if DeviceSessionPossible(verify, s, d) {
      var after :| Runnable(verify, s, after) && HasDeviceSession(Run(verify, s, after), d);
      forall tid ensures !Promises(verify, s, tid, d) {
        if Promises(verify, s, tid, d) {
          RevokedIsNotResolved(verify, s, tid, d);
        }
      }
      DeviceStaysWithoutSession(verify, s, after, d);
    }
  }
}
