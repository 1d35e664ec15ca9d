/** The promises of the session service, over every run from the empty state. */
module SessionTheorems {
  import opened Wrappers
  import opened SessionStores
  import opened SessionProtocol
  import opened SessionSafety

  /**
   Every stored session was committed by a request that read its generation
   after the last completed revocation of that device, even when generation
   reads fail and yield 0.
   */
  lemma SessionsPostdateRevocations(verify: Verifier, steps: seq<Step>, token: string)
    requires Runnable(verify, Init, steps) && token in Run(verify, Init, steps).table.sessions
    ensures var s := Run(verify, Init, steps);
            exists tid, at :: 0 <= at < |s.hist.trace| && s.hist.trace[at] == GenerationRead(tid) &&
              tid in s.threads && CommittedToken(s.threads[tid]) == Some(token) &&
              forall i :: at < i < |s.hist.trace| ==>
                s.hist.trace[i] != SessionsRevoked(DeviceOf(s.table.sessions[token]))
  {
    RunKeepsInv(verify, Init, steps);
    var s := Run(verify, Init, steps);
    assert GoodSession(s.hist, token, s.table.sessions[token]);
    var o := s.hist.origins[token];
    assert GoodOrigin(verify, s, token, o);
    assert s.hist.trace[o.c.at] == GenerationRead(o.tid);
  }

  /**
   Removing a device works: once RevokeDevice has completed and a later
   RevokeSessionsForDevice has completed too, no session of the device exists,
   then or at any later time, whatever was in flight.
   */
  lemma RemovedDeviceHasNoSession(verify: Verifier, steps: seq<Step>, device: Device, i: nat, j: nat, token: string)
    requires Runnable(verify, Init, steps)
    requires i < j < |Run(verify, Init, steps).hist.trace|
    requires Run(verify, Init, steps).hist.trace[i] == DeviceRevoked(device)
    requires Run(verify, Init, steps).hist.trace[j] == SessionsRevoked(device)
    requires token in Run(verify, Init, steps).table.sessions
    ensures DeviceOf(Run(verify, Init, steps).table.sessions[token]) != device
  {
    RunKeepsInv(verify, Init, steps);
    var s := Run(verify, Init, steps);
    assert GoodSession(s.hist, token, s.table.sessions[token]);
    var o := s.hist.origins[token];
    assert GoodOrigin(verify, s, token, o);
    assert s.hist.trace[o.r.at] == DeviceResolved(o.tid, o.device, o.r.key);
    assert o.device == device ==> j < o.c.at;
  }

  /**
   Each nonce yields at most one session, and only for the identity and device
   it was issued to, from a request that started before it expired and whose
   proof verified against the key resolved in that request.
   */
  lemma OneSessionPerNonce(verify: Verifier, steps: seq<Step>, token: string, other: string)
    requires Runnable(verify, Init, steps)
    requires token in Run(verify, Init, steps).hist.origins && other in Run(verify, Init, steps).hist.origins
    ensures var h := Run(verify, Init, steps).hist;
            h.origins[token].nonce == h.origins[other].nonce ==> token == other
    ensures var s := Run(verify, Init, steps); var o := s.hist.origins[token];
            && o.nonce in s.hist.challenges
            && Device(s.hist.challenges[o.nonce].identityRef, s.hist.challenges[o.nonce].deviceId) == o.device
            && o.startedAt <= s.hist.challenges[o.nonce].expiresAtUnix
            && (exists at :: o.c.at < at < |s.hist.trace| && s.hist.trace[at] == DeviceResolved(o.tid, o.device, o.r.key))
            && verify(o.r.key, SessionMessage(IssueRequest(o.device.identityRef, o.device.deviceId, o.nonce, o.proof)), o.proof)
            && (token in s.table.sessions ==> DeviceOf(s.table.sessions[token]) == o.device)
  {
    RunKeepsInv(verify, Init, steps);
    var s := Run(verify, Init, steps);
    var o := s.hist.origins[token];
    assert GoodOrigin(verify, s, token, o);
    assert GoodOrigin(verify, s, other, s.hist.origins[other]);
    assert s.hist.trace[o.r.at] == DeviceResolved(o.tid, o.device, o.r.key);
    if token in s.table.sessions {
      assert GoodSession(s.hist, token, s.table.sessions[token]);
    }
  }

  /** A session has a recorded origin as long as it is stored. */
  lemma StoredHasOrigin(verify: Verifier, steps: seq<Step>, token: string)
    requires Runnable(verify, Init, steps) && token in Run(verify, Init, steps).table.sessions
    ensures token in Run(verify, Init, steps).hist.origins
  {
    RunKeepsInv(verify, Init, steps);
    var s := Run(verify, Init, steps);
    assert GoodSession(s.hist, token, s.table.sessions[token]);
  }

  /**
   A deleted session never comes back.  In particular ValidateSession, which
   reads and touches in two steps, cannot revive one deleted in between.
   */
  lemma {:induction false} DeletedStaysDeleted(verify: Verifier, s: State, steps: seq<Step>, token: string)
    requires Runnable(verify, s, steps)
    requires token in s.hist.origins && token !in s.table.sessions
    ensures token in Run(verify, s, steps).hist.origins && token !in Run(verify, s, steps).table.sessions
    decreases |steps|
  {
    if steps != [] {
      DeletedStaysDeleted(verify, Apply(verify, s, steps[0]), steps[1..], token);
    }
  }

  // ----- Where the promises stop -----

  lemma {:induction false} RunAppend(verify: Verifier, s: State, steps: seq<Step>, step: Step)
    requires Runnable(verify, s, steps) && Enabled(Run(verify, s, steps), step)
    ensures Runnable(verify, s, steps + [step])
    ensures Run(verify, s, steps + [step]) == Apply(verify, Run(verify, s, steps), step)
    decreases |steps|
  {
    if steps == [] {
      assert [step][1..] == [];
    } else {
      assert (steps + [step])[1..] == steps[1..] + [step];
      RunAppend(verify, Apply(verify, s, steps[0]), steps[1..], step);
    }
  }

  /** Between the two states request `tid` came as far as having consumed its nonce, and nothing else happened. */
  ghost predicate ReadyToCommit(s: State, s': State, tid: nat, req: IssueRequest, now: int) {
    && s'.table == s.table && s'.bound == s.bound && s'.nonces == s.nonces - {req.nonce}
    && s'.hist.origins == s.hist.origins && s'.hist.challenges == s.hist.challenges
    && s.hist.trace <= s'.hist.trace
    && s'.threads.Keys == s.threads.Keys + {tid}
    && (forall t :: t in s.threads ==> s'.threads[t] == s.threads[t])
    && s'.threads[tid].Issuing? && s'.threads[tid].req == req && s'.threads[tid].now == now
    && s'.threads[tid].pc.Consumed? && s'.threads[tid].pc.c.observed == Generation(s.table, RequestDevice(req))
  }

  /** A request that runs alone gets as far as having consumed its nonce. */
  lemma IssueAlone(verify: Verifier, steps: seq<Step>, tid: nat, req: IssueRequest, now: int) returns (more: seq<Step>)
    requires Runnable(verify, Init, steps)
    requires var s := Run(verify, Init, steps);
             && tid !in s.threads && RequestDevice(req) in s.bound
             && NonceValid(s.nonces, req.nonce, RequestDevice(req), now)
             && req.identityRef != "" && req.deviceId != "" && req.nonce != "" && req.proof != ""
             && verify(s.bound[RequestDevice(req)], SessionMessage(req), req.proof)
    ensures Runnable(verify, Init, more)
    ensures ReadyToCommit(Run(verify, Init, steps), Run(verify, Init, more), tid, req, now)
  {
    more := steps;
    RunAppend(verify, Init, more, BeginIssue(tid, req, now));
    more := more + [BeginIssue(tid, req, now)];
    RunAppend(verify, Init, more, ReadGeneration(tid, false));
    more := more + [ReadGeneration(tid, false)];
    RunAppend(verify, Init, more, PeekNonce(tid));
    more := more + [PeekNonce(tid)];
    RunAppend(verify, Init, more, ResolveDevice(tid, false));
    more := more + [ResolveDevice(tid, false)];
    RunAppend(verify, Init, more, VerifyProof(tid));
    more := more + [VerifyProof(tid)];
    RunAppend(verify, Init, more, ConsumeNonce(tid));
    more := more + [ConsumeNonce(tid)];
  }

  const ANY_PROOF: Verifier := (key: string, message: string, proof: string) => true

  const LAPTOP := Device("alice", "laptop")

  function Req(nonce: string): IssueRequest {
    IssueRequest("alice", "laptop", nonce, "proof")
  }

  /** A run in which the laptop holds session "s0" and nonce "n1" is outstanding. */
  lemma OneSessionRun() returns (steps: seq<Step>)
    ensures Runnable(ANY_PROOF, Init, steps)
    ensures var s := Run(ANY_PROOF, Init, steps);
            && s.table == SessionTable(map["s0" := Session("s0", "alice", "laptop", 0, 1800, 0)], map[])
            && s.bound == map[LAPTOP := "key"] && s.threads.Keys == {0}
            && NonceValid(s.nonces, "n1", LAPTOP, 0)
            && s.hist.origins.Keys == {"s0"}
  {
    steps := [];
    RunAppend(ANY_PROOF, Init, steps, Bind(LAPTOP, "key"));
    steps := steps + [Bind(LAPTOP, "key")];
    RunAppend(ANY_PROOF, Init, steps, Challenge(LAPTOP, "n0", 0));
    steps := steps + [Challenge(LAPTOP, "n0", 0)];
    RunAppend(ANY_PROOF, Init, steps, Challenge(LAPTOP, "n1", 0));
    steps := steps + [Challenge(LAPTOP, "n1", 0)];
    steps := IssueAlone(ANY_PROOF, steps, 0, Req("n0"), 0);
    RunAppend(ANY_PROOF, Init, steps, Commit(0, "s0"));
    steps := steps + [Commit(0, "s0")];
  }

  ghost predicate OnlySessionRevoked(s: State, s': State, call: TokenCall) {
    && s'.table.sessions == map[]
    && Generation(s'.table, LAPTOP) == (if call == RevokeAllSessions then 0 else 1)
    && s'.bound == s.bound && s'.nonces == s.nonces && s'.hist.origins == s.hist.origins
    && s'.threads.Keys == s.threads.Keys + {1}
    && (forall t :: t in s.threads ==> s'.threads[t] == s.threads[t])
    && s'.threads[1] == Presenting(call, "s0", 0, Answered(true))
    && s'.hist.trace == s.hist.trace + if call == RevokeAllSessions then [] else [SessionsRevoked(LAPTOP)]
  }

  /** The states of a call that presents "s0" and is not disturbed. */
  lemma RevokeAlone(s: State, call: TokenCall)
    requires call == RevokeAllSessions || call == RevokeSessionsForDevice("laptop")
    requires 1 !in s.threads
    requires s.table == SessionTable(map["s0" := Session("s0", "alice", "laptop", 0, 1800, 0)], map[])
    ensures var s1 := Apply(ANY_PROOF, s, BeginCall(1, call, "s0", 0));
            Enabled(s1, LookUp(1)) &&
            var s2 := Apply(ANY_PROOF, s1, LookUp(1));
            Enabled(s2, Act(1)) && OnlySessionRevoked(s, Apply(ANY_PROOF, s2, Act(1)), call)
  {
  }

  /** Request 1 presents "s0"; afterwards the store holds no session. */
  lemma RevokeWithSession(steps: seq<Step>, call: TokenCall) returns (more: seq<Step>)
    requires Runnable(ANY_PROOF, Init, steps)
    requires call == RevokeAllSessions || call == RevokeSessionsForDevice("laptop")
    requires var s := Run(ANY_PROOF, Init, steps);
             && 1 !in s.threads
             && s.table == SessionTable(map["s0" := Session("s0", "alice", "laptop", 0, 1800, 0)], map[])
    ensures Runnable(ANY_PROOF, Init, more)
    ensures OnlySessionRevoked(Run(ANY_PROOF, Init, steps), Run(ANY_PROOF, Init, more), call)
  {
    RevokeAlone(Run(ANY_PROOF, Init, steps), call);
    RunAppend(ANY_PROOF, Init, steps, BeginCall(1, call, "s0", 0));
    more := steps + [BeginCall(1, call, "s0", 0)];
    RunAppend(ANY_PROOF, Init, more, LookUp(1));
    more := more + [LookUp(1)];
    RunAppend(ANY_PROOF, Init, more, Act(1));
    more := more + [Act(1)];
  }

  /** The laptop's sessions were revoked at `i`, request 2 has resolved the device since, and the device is still bound. */
  ghost predicate ResolvedInBetween(s: State, i: nat) {
    && i < |s.hist.trace| && s.hist.trace[i] == SessionsRevoked(LAPTOP)
    && LAPTOP in s.bound && s.hist.origins.Keys == {"s0"}
    && IssuingAt(s, 2) && s.threads[2].req == Req("n1") && s.threads[2].pc.Consumed?
    && s.threads[2].pc.c.observed == Generation(s.table, LAPTOP)
  }

  lemma ResolveInBetween() returns (steps: seq<Step>, i: nat)
    ensures Runnable(ANY_PROOF, Init, steps) && ResolvedInBetween(Run(ANY_PROOF, Init, steps), i)
  {
    steps := OneSessionRun();
    i := |Run(ANY_PROOF, Init, steps).hist.trace|;
    steps := RevokeWithSession(steps, RevokeSessionsForDevice("laptop"));
    assert Run(ANY_PROOF, Init, steps).hist.trace[i] == SessionsRevoked(LAPTOP);
    steps := IssueAlone(ANY_PROOF, steps, 2, Req("n1"), 0);
  }

  /** Both revocations have completed, in this order, and the laptop has a session. */
  ghost predicate LiveAfterBoth(s: State, i: nat, j: nat) {
    && i < j < |s.hist.trace|
    && s.hist.trace[i] == SessionsRevoked(LAPTOP) && s.hist.trace[j] == DeviceRevoked(LAPTOP)
    && "s1" in s.table.sessions && DeviceOf(s.table.sessions["s1"]) == LAPTOP
  }

  lemma RevokeThenCommit(s: State, i: nat)
    requires ResolvedInBetween(s, i)
    ensures var s1 := Apply(ANY_PROOF, s, RevokeDevice(LAPTOP));
            Enabled(s1, Commit(2, "s1")) && LiveAfterBoth(Apply(ANY_PROOF, s1, Commit(2, "s1")), i, |s.hist.trace|)
  {
  }

  /**
   The order matters: revoking the sessions first and the device second can
   leave a live session, committed by a request that resolved the device in
   between.
   */
  lemma SessionsFirstIsNotEnough()
    ensures exists steps, i, j :: Runnable(ANY_PROOF, Init, steps) && LiveAfterBoth(Run(ANY_PROOF, Init, steps), i, j)
  {
    var steps, i := ResolveInBetween();
    var j := |Run(ANY_PROOF, Init, steps).hist.trace|;
    RevokeThenCommit(Run(ANY_PROOF, Init, steps), i);
    RunAppend(ANY_PROOF, Init, steps, RevokeDevice(LAPTOP));
    RunAppend(ANY_PROOF, Init, steps + [RevokeDevice(LAPTOP)], Commit(2, "s1"));
    assert LiveAfterBoth(Run(ANY_PROOF, Init, steps + [RevokeDevice(LAPTOP)] + [Commit(2, "s1")]), i, j);
  }

  /**
   RevokeAllSessions is only a snapshot: it moves no generation, so a request
   already in flight can commit a session after it has answered.
   */
  lemma RevokeAllIsASnapshot()
    ensures exists steps ::
              Runnable(ANY_PROOF, Init, steps + [Commit(2, "s1")]) && Runnable(ANY_PROOF, Init, steps) &&
              (var s := Run(ANY_PROOF, Init, steps);
               && s.table.sessions == map[] && 1 in s.threads
               && s.threads[1] == Presenting(RevokeAllSessions, "s0", 0, Answered(true))) &&
              (var s' := Run(ANY_PROOF, Init, steps + [Commit(2, "s1")]);
               "s1" in s'.table.sessions && s'.table.sessions["s1"].identityRef == "alice")
  {
    var steps := OneSessionRun();
    steps := IssueAlone(ANY_PROOF, steps, 2, Req("n1"), 0);
    steps := RevokeWithSession(steps, RevokeAllSessions);
    RunAppend(ANY_PROOF, Init, steps, Commit(2, "s1"));
  }
}
