/** What every interleaving of the session protocol guarantees. */
module SessionSafety {
  import opened Wrappers
  import opened SessionStores
  import opened SessionProtocol

  // ----- Generations count revocations -----

  function Revocations(trace: seq<Event>, device: Device): nat {
    if trace == [] then 0
    else Revocations(trace[..|trace| - 1], device) + if trace[|trace| - 1] == SessionsRevoked(device) then 1 else 0
  }

  /** No completed revocation of the device at position `from` or later. */
  ghost predicate NoRevocationSince(trace: seq<Event>, device: Device, from: nat) {
    forall i :: from <= i < |trace| ==> trace[i] != SessionsRevoked(device)
  }

  lemma RevocationsAppend(trace: seq<Event>, e: Event, device: Device)
    ensures Revocations(trace + [e], device) == Revocations(trace, device) + if e == SessionsRevoked(device) then 1 else 0
  {
    assert (trace + [e])[..|trace|] == trace;
  }

  /** Two equal counts mean no revocation in between. */
  lemma {:induction false} EqualCounts(trace: seq<Event>, device: Device, from: nat)
    requires from <= |trace|
    ensures Revocations(trace[..from], device) <= Revocations(trace, device)
    ensures Revocations(trace[..from], device) == Revocations(trace, device) ==> NoRevocationSince(trace, device, from)
    decreases |trace|
  {
    if from < |trace| {
      var front := trace[..|trace| - 1];
      EqualCounts(front, device, from);
      assert front[..from] == trace[..from];
      if Revocations(trace[..from], device) == Revocations(trace, device) {
        forall i | from <= i < |trace| ensures trace[i] != SessionsRevoked(device) {
          if i < |front| {
            assert trace[i] == front[i];
          }
        }
      }
    } else {
      assert trace[..from] == trace;
    }
  }

  // ----- The invariant -----

  /** A captured generation is 0 or the number of revocations before the read. */
  ghost predicate GoodCapture(h: History, device: Device, tid: nat, c: Capture) {
    c.at < |h.trace| && h.trace[c.at] == GenerationRead(tid) &&
    (c.observed == 0 || c.observed == Revocations(h.trace[..c.at], device))
  }

  ghost predicate GoodResolution(h: History, device: Device, tid: nat, c: Capture, r: Resolution) {
    c.at < r.at < |h.trace| && h.trace[r.at] == DeviceResolved(tid, device, r.key)
  }

  /** The nonce was issued to this device and had not expired at `now`. */
  ghost predicate GoodNonce(h: History, device: Device, nonce: string, now: int) {
    NonceValid(h.challenges, nonce, device, now)
  }

  ghost predicate GoodThread(verify: Verifier, h: History, tid: nat, t: Thread) {
    t.Issuing? ==>
      var device := RequestDevice(t.req);
      match t.pc
      case Begun => true
      case Captured(c) => GoodCapture(h, device, tid, c)
      case Peeked(c) => GoodCapture(h, device, tid, c)
      case Resolved(c, r) => GoodCapture(h, device, tid, c) && GoodResolution(h, device, tid, c, r)
      case Verified(c, r) =>
        GoodCapture(h, device, tid, c) && GoodResolution(h, device, tid, c, r) &&
        verify(r.key, SessionMessage(t.req), t.req.proof)
      case Consumed(c, r) =>
        GoodCapture(h, device, tid, c) && GoodResolution(h, device, tid, c, r) &&
        verify(r.key, SessionMessage(t.req), t.req.proof) &&
        GoodNonce(h, device, t.req.nonce, t.now) &&
        t.req.nonce in h.consumedBy && h.consumedBy[t.req.nonce] == tid
      case Stored(token) => token in h.origins
      case Finished(_) => true
  }

  /** The token a request committed, if it did. */
  function CommittedToken(t: Thread): Option<string> {
    if t.Presenting? then None
    else
      match t.pc
      case Stored(token) => Some(token)
      case Finished(Issued(token, _)) => Some(token)
      case Finished(AuditFailed(token)) => Some(token)
      case _ => None
  }

  ghost predicate GoodOrigin(verify: Verifier, s: State, token: string, o: Origin) {
    && GoodCapture(s.hist, o.device, o.tid, o.c)
    && GoodResolution(s.hist, o.device, o.tid, o.c, o.r)
    && GoodNonce(s.hist, o.device, o.nonce, o.startedAt)
    && verify(o.r.key, SessionMessage(IssueRequest(o.device.identityRef, o.device.deviceId, o.nonce, o.proof)), o.proof)
    && o.nonce in s.hist.consumedBy && s.hist.consumedBy[o.nonce] == o.tid
    && o.tid in s.threads && CommittedToken(s.threads[o.tid]) == Some(token)
  }

  ghost predicate GoodSession(h: History, token: string, session: Session) {
    && session.token == token && token in h.origins && h.origins[token].device == DeviceOf(session)
    && NoRevocationSince(h.trace, DeviceOf(session), h.origins[token].c.at)
  }

  /** A revoked device is gone for good. */
  ghost predicate DevicesInv(s: State) {
    && (forall d :: d in s.bound ==> DeviceBound(d) in s.hist.trace)
    && (forall d :: DeviceRevoked(d) in s.hist.trace ==> DeviceBound(d) in s.hist.trace && d !in s.bound)
    && (forall i, j, d, tid, key :: 0 <= i < j < |s.hist.trace| && s.hist.trace[i] == DeviceRevoked(d) ==>
          s.hist.trace[j] != DeviceResolved(tid, d, key))
  }

  ghost predicate NoncesInv(s: State) {
    && (forall n :: n in s.nonces ==>
          n in s.hist.challenges && s.hist.challenges[n] == s.nonces[n] && n !in s.hist.consumedBy)
    && (forall n :: n in s.hist.consumedBy ==> n in s.hist.challenges)
  }

  ghost predicate GenerationsInv(s: State) {
    forall d: Device :: Generation(s.table, d) == Revocations(s.hist.trace, d)
  }

  ghost predicate ThreadsInv(verify: Verifier, s: State) {
    forall tid :: tid in s.threads ==> GoodThread(verify, s.hist, tid, s.threads[tid])
  }

  ghost predicate OriginsInv(verify: Verifier, s: State) {
    forall token :: token in s.hist.origins ==> GoodOrigin(verify, s, token, s.hist.origins[token])
  }

  ghost predicate SessionsInv(s: State) {
    forall token :: token in s.table.sessions ==> GoodSession(s.hist, token, s.table.sessions[token])
  }

  ghost predicate Inv(verify: Verifier, s: State) {
    DevicesInv(s) && NoncesInv(s) && GenerationsInv(s) && ThreadsInv(verify, s) && OriginsInv(verify, s) && SessionsInv(s)
  }

  // ----- Every step keeps it -----

  /** History only grows. */
  ghost predicate Grows(h: History, h': History) {
    && h.trace <= h'.trace
    && (forall n :: n in h.challenges ==> n in h'.challenges && h'.challenges[n] == h.challenges[n])
    && (forall n :: n in h.consumedBy ==> n in h'.consumedBy && h'.consumedBy[n] == h.consumedBy[n])
    && (forall token :: token in h.origins ==> token in h'.origins && h'.origins[token] == h.origins[token])
  }

  /** What the step adds to the trace. */
  function NewEvents(s: State, step: Step): seq<Event>
    requires Enabled(s, step)
  {
    match step
    case ReadGeneration(tid, _) => [GenerationRead(tid)]
    case ResolveDevice(tid, lookupFails) =>
      var device := RequestDevice(s.threads[tid].req);
      if lookupFails || device !in s.bound then [] else [DeviceResolved(tid, device, s.bound[device])]
    case Act(tid) =>
      var t := s.threads[tid];
      if t.call.RevokeSessionsForDevice? then [SessionsRevoked(Device(t.tpc.session.identityRef, t.call.deviceId))] else []
    case Bind(device, _) => [DeviceBound(device)]
    case RevokeDevice(device) => [DeviceRevoked(device)]
    case _ => []
  }

  lemma ActTrace(verify: Verifier, s: State, step: Step)
    requires Enabled(s, step) && step.Act?
    ensures Apply(verify, s, step).hist.trace == s.hist.trace + NewEvents(s, step)
  {
  }

  lemma RequestTrace(verify: Verifier, s: State, step: Step)
    requires Enabled(s, step) && (step.ReadGeneration? || step.ResolveDevice? || step.Bind? || step.RevokeDevice?)
    ensures Apply(verify, s, step).hist.trace == s.hist.trace + NewEvents(s, step)
  {
  }

  lemma TraceStep(verify: Verifier, s: State, step: Step)
    requires Enabled(s, step)
    ensures Apply(verify, s, step).hist.trace == s.hist.trace + NewEvents(s, step)
  {
    if step.Act? {
      ActTrace(verify, s, step);
    } else if step.ReadGeneration? || step.ResolveDevice? || step.Bind? || step.RevokeDevice? {
      RequestTrace(verify, s, step);
    }
  }

  lemma NoncesUntouched(verify: Verifier, s: State, step: Step)
    requires Enabled(s, step) && !step.Challenge? && !step.ConsumeNonce?
    ensures var s' := Apply(verify, s, step);
            s'.nonces == s.nonces && s'.hist.challenges == s.hist.challenges && s'.hist.consumedBy == s.hist.consumedBy
  {
  }

  lemma OriginsUntouched(verify: Verifier, s: State, step: Step)
    requires Enabled(s, step) && !step.Commit?
    ensures Apply(verify, s, step).hist.origins == s.hist.origins
  {
  }

  lemma NonceGrows(verify: Verifier, s: State, step: Step)
    requires Enabled(s, step) && NoncesInv(s) && (step.ConsumeNonce? || step.Challenge?)
    ensures Grows(s.hist, Apply(verify, s, step).hist) && NoncesInv(Apply(verify, s, step))
  {
  }

  lemma StepGrows(verify: Verifier, s: State, step: Step)
    requires Enabled(s, step) && NoncesInv(s)
    ensures Grows(s.hist, Apply(verify, s, step).hist)
  {
    if step.ConsumeNonce? || step.Challenge? {
      NonceGrows(verify, s, step);
    } else {
      TraceStep(verify, s, step);
      NoncesUntouched(verify, s, step);
      if !step.Commit? {
        OriginsUntouched(verify, s, step);
      }
    }
  }

  lemma CaptureSurvives(h: History, h': History, device: Device, tid: nat, c: Capture)
    requires Grows(h, h') && GoodCapture(h, device, tid, c)
    ensures GoodCapture(h', device, tid, c)
  {
    assert h'.trace[..c.at] == h.trace[..c.at];
  }

  lemma ThreadSurvives(verify: Verifier, h: History, h': History, tid: nat, t: Thread)
    requires Grows(h, h') && GoodThread(verify, h, tid, t)
    ensures GoodThread(verify, h', tid, t)
  {
    if t.Issuing? {
      var device := RequestDevice(t.req);
      match t.pc
      case Captured(c) => CaptureSurvives(h, h', device, tid, c);
      case Peeked(c) => CaptureSurvives(h, h', device, tid, c);
      case Resolved(c, r) => CaptureSurvives(h, h', device, tid, c);
      case Verified(c, r) => CaptureSurvives(h, h', device, tid, c);
      case Consumed(c, r) => CaptureSurvives(h, h', device, tid, c);
      case _ =>
    }
  }

  /** Two of the three clauses look at the devices and at single events. */
  lemma DevicesBoundStep(verify: Verifier, s: State, step: Step)
    requires Enabled(s, step) && DevicesInv(s)
    ensures var s' := Apply(verify, s, step);
            && (forall d :: d in s'.bound ==> DeviceBound(d) in s'.hist.trace)
            && (forall d :: DeviceRevoked(d) in s'.hist.trace ==> DeviceBound(d) in s'.hist.trace && d !in s'.bound)
  {
  }

  /** The third looks at pairs of events: a revoked device is resolved no more. */
  lemma ResolutionsStep(trace: seq<Event>, e: Event)
    requires forall i, j, d, tid, key :: 0 <= i < j < |trace| && trace[i] == DeviceRevoked(d) ==> trace[j] != DeviceResolved(tid, d, key)
    requires e.DeviceResolved? ==> DeviceRevoked(e.device) !in trace
    ensures forall i, j, d, tid, key :: 0 <= i < j < |trace + [e]| && (trace + [e])[i] == DeviceRevoked(d) ==>
              (trace + [e])[j] != DeviceResolved(tid, d, key)
  {
  }

  lemma ResolvedIsBound(s: State, step: Step)
    requires Enabled(s, step) && DevicesInv(s)
    ensures forall e :: e in NewEvents(s, step) && e.DeviceResolved? ==> DeviceRevoked(e.device) !in s.hist.trace
  {
  }

  lemma DevicesStep(verify: Verifier, s: State, step: Step)
    requires Enabled(s, step) && DevicesInv(s)
    ensures DevicesInv(Apply(verify, s, step))
  {
    TraceStep(verify, s, step);
    DevicesBoundStep(verify, s, step);
    ResolvedIsBound(s, step);
    if NewEvents(s, step) != [] {
      ResolutionsStep(s.hist.trace, NewEvents(s, step)[0]);
      assert NewEvents(s, step) == [NewEvents(s, step)[0]];
    } else {
      assert s.hist.trace + [] == s.hist.trace;
    }
  }

  lemma NoncesStep(verify: Verifier, s: State, step: Step)
    requires Enabled(s, step) && NoncesInv(s)
    ensures NoncesInv(Apply(verify, s, step))
  {
    if step.ConsumeNonce? || step.Challenge? {
      NonceGrows(verify, s, step);
    } else {
      NoncesUntouched(verify, s, step);
    }
  }

  ghost predicate GenerationMoves(s: State, s': State, d: Device) {
    var t := s.hist.trace;
    && (s'.hist.trace == t || (|s'.hist.trace| == |t| + 1 && s'.hist.trace == t + [s'.hist.trace[|t|]]))
    && Generation(s'.table, d)
       == Generation(s.table, d) + if s'.hist.trace != t && s'.hist.trace[|t|] == SessionsRevoked(d) then 1 else 0
  }

  lemma QuietStep(verify: Verifier, s: State, step: Step, d: Device)
    requires Enabled(s, step) && !step.Commit? && !step.Act?
    ensures GenerationMoves(s, Apply(verify, s, step), d)
  {
  }

  lemma CommitOrActStep(verify: Verifier, s: State, step: Step, d: Device)
    requires Enabled(s, step) && (step.Commit? || step.Act?)
    ensures GenerationMoves(s, Apply(verify, s, step), d)
  {
  }

  /** Only a completed revocation of a device moves its generation, and by one. */
  lemma GenerationStep(verify: Verifier, s: State, step: Step, d: Device)
    requires Enabled(s, step)
    ensures GenerationMoves(s, Apply(verify, s, step), d)
  {
    if step.Commit? || step.Act? {
      CommitOrActStep(verify, s, step, d);
    } else {
      QuietStep(verify, s, step, d);
    }
  }

  lemma GenerationsStep(verify: Verifier, s: State, step: Step)
    requires Enabled(s, step) && GenerationsInv(s)
    ensures GenerationsInv(Apply(verify, s, step))
  {
    var t, s' := s.hist.trace, Apply(verify, s, step);
    forall d: Device ensures Generation(s'.table, d) == Revocations(s'.hist.trace, d) {
      GenerationStep(verify, s, step, d);
      if s'.hist.trace != t {
        RevocationsAppend(t, s'.hist.trace[|t|], d);
      }
    }
  }

  /** The request a step belongs to. */
  function Actor(step: Step): Option<nat> {
    match step
    case Challenge(_, _, _) => None
    case Bind(_, _) => None
    case RevokeDevice(_) => None
    case _ => Some(step.tid)
  }

  lemma OthersUnchanged(verify: Verifier, s: State, step: Step, tid: nat)
    requires Enabled(s, step) && tid in Apply(verify, s, step).threads && Actor(step) != Some(tid)
    ensures tid in s.threads && Apply(verify, s, step).threads[tid] == s.threads[tid]
  {
  }

  /** The steps that read the world into the thread. */
  lemma ReadingStep(verify: Verifier, s: State, step: Step)
    requires Enabled(s, step) && NoncesInv(s) && GenerationsInv(s) && (step.ReadGeneration? || step.ResolveDevice?)
    requires GoodThread(verify, s.hist, step.tid, s.threads[step.tid])
    ensures var s' := Apply(verify, s, step); GoodThread(verify, s'.hist, step.tid, s'.threads[step.tid])
  {
    var s' := Apply(verify, s, step);
    if step.ReadGeneration? {
      assert s'.hist.trace[..|s.hist.trace|] == s.hist.trace;
    } else {
      StepGrows(verify, s, step);
      var t := s.threads[step.tid];
      CaptureSurvives(s.hist, s'.hist, RequestDevice(t.req), step.tid, t.pc.c);
    }
  }

  lemma ActorStep(verify: Verifier, s: State, step: Step)
    requires Enabled(s, step) && NoncesInv(s) && Actor(step).Some?
    requires Actor(step).value in s.threads ==>
               GoodThread(verify, s.hist, Actor(step).value, s.threads[Actor(step).value])
    requires GenerationsInv(s)
    ensures var tid := Actor(step).value; var s' := Apply(verify, s, step);
            tid in s'.threads && GoodThread(verify, s'.hist, tid, s'.threads[tid])
  {
    if step.ReadGeneration? || step.ResolveDevice? {
      ReadingStep(verify, s, step);
    }
  }

  lemma ThreadsStep(verify: Verifier, s: State, step: Step, tid: nat)
    requires Enabled(s, step) && Inv(verify, s) && tid in Apply(verify, s, step).threads
    ensures GoodThread(verify, Apply(verify, s, step).hist, tid, Apply(verify, s, step).threads[tid])
  {
    if Actor(step) == Some(tid) {
      ActorStep(verify, s, step);
    } else {
      StepGrows(verify, s, step);
      OthersUnchanged(verify, s, step, tid);
      ThreadSurvives(verify, s.hist, Apply(verify, s, step).hist, tid, s.threads[tid]);
    }
  }

  /** A request that has committed stays committed to the same token. */
  lemma CommittedStays(verify: Verifier, s: State, step: Step, tid: nat)
    requires Enabled(s, step) && tid in s.threads && CommittedToken(s.threads[tid]).Some?
    ensures tid in Apply(verify, s, step).threads
    ensures CommittedToken(Apply(verify, s, step).threads[tid]) == CommittedToken(s.threads[tid])
  {
  }

  lemma OriginSurvives(verify: Verifier, s: State, s': State, token: string, o: Origin)
    requires Grows(s.hist, s'.hist) && GoodOrigin(verify, s, token, o)
    requires o.tid in s'.threads && CommittedToken(s'.threads[o.tid]) == Some(token)
    ensures GoodOrigin(verify, s', token, o)
  {
    CaptureSurvives(s.hist, s'.hist, o.device, o.tid, o.c);
  }

  lemma NewOrigin(verify: Verifier, s: State, tid: nat, token: string)
    requires Enabled(s, Commit(tid, token)) && GoodThread(verify, s.hist, tid, s.threads[tid])
    requires Generation(s.table, RequestDevice(s.threads[tid].req)) == s.threads[tid].pc.c.observed
    ensures var s' := ApplyCommit(s, tid, token); GoodOrigin(verify, s', token, s'.hist.origins[token])
  {
  }

  lemma OriginStays(verify: Verifier, s: State, step: Step, token: string)
    requires Enabled(s, step) && Inv(verify, s) && token in s.hist.origins
    ensures token in Apply(verify, s, step).hist.origins
    ensures GoodOrigin(verify, Apply(verify, s, step), token, Apply(verify, s, step).hist.origins[token])
  {
    StepGrows(verify, s, step);
    var o := s.hist.origins[token];
    assert GoodOrigin(verify, s, token, o);
    CommittedStays(verify, s, step, o.tid);
    OriginSurvives(verify, s, Apply(verify, s, step), token, o);
  }

  /** An origin is recorded by a commit that passes the gate. */
  lemma OriginAppears(verify: Verifier, s: State, step: Step, token: string)
    requires Enabled(s, step) && token in Apply(verify, s, step).hist.origins && token !in s.hist.origins
    ensures step == Commit(step.tid, token)
    ensures Generation(s.table, RequestDevice(s.threads[step.tid].req)) == s.threads[step.tid].pc.c.observed
  {
  }

  lemma OriginsStep(verify: Verifier, s: State, step: Step, token: string)
    requires Enabled(s, step) && Inv(verify, s) && token in Apply(verify, s, step).hist.origins
    ensures GoodOrigin(verify, Apply(verify, s, step), token, Apply(verify, s, step).hist.origins[token])
  {
    if token in s.hist.origins {
      OriginStays(verify, s, step, token);
    } else {
      OriginAppears(verify, s, step, token);
      assert GoodThread(verify, s.hist, step.tid, s.threads[step.tid]);
      NewOrigin(verify, s, step.tid, token);
    }
  }

  /** The gate lets a session through only if nothing was revoked since the capture. */
  lemma CommitMeansNoRevocation(s: State, device: Device, tid: nat, c: Capture)
    requires GenerationsInv(s) && GoodCapture(s.hist, device, tid, c)
    requires Generation(s.table, device) == c.observed
    ensures NoRevocationSince(s.hist.trace, device, c.at)
  {
    EqualCounts(s.hist.trace, device, c.at);
  }

  /** A stored session was stored before, touched, or is being committed by this step. */
  lemma StoredBefore(verify: Verifier, s: State, step: Step, token: string)
    requires Enabled(s, step) && token in Apply(verify, s, step).table.sessions
    ensures (step.Commit? && step.token == token) ||
            (token in s.table.sessions &&
             Apply(verify, s, step).table.sessions[token].(lastUsedAtUnix := 0) == s.table.sessions[token].(lastUsedAtUnix := 0))
  {
  }

  /** A session that is stored after a step is not of the device the step revoked. */
  lemma RevokedAreGone(verify: Verifier, s: State, step: Step, token: string)
    requires Enabled(s, step) && token in Apply(verify, s, step).table.sessions
    ensures SessionsRevoked(DeviceOf(Apply(verify, s, step).table.sessions[token])) !in NewEvents(s, step)
  {
    if step.Act? && s.threads[step.tid].call.RevokeSessionsForDevice? {
      var t := s.threads[step.tid];
      assert Apply(verify, s, step).table == AfterRevokeAllForDevice(s.table, Device(t.tpc.session.identityRef, t.call.deviceId));
    }
  }

  lemma CommitStep(verify: Verifier, s: State, tid: nat, token: string)
    requires Enabled(s, Commit(tid, token)) && GenerationsInv(s) && GoodThread(verify, s.hist, tid, s.threads[tid])
    requires Generation(s.table, RequestDevice(s.threads[tid].req)) == s.threads[tid].pc.c.observed
    ensures var s' := ApplyCommit(s, tid, token); GoodSession(s'.hist, token, s'.table.sessions[token])
  {
    CommitMeansNoRevocation(s, RequestDevice(s.threads[tid].req), tid, s.threads[tid].pc.c);
  }

  lemma SessionSurvives(h: History, h': History, events: seq<Event>, token: string, session: Session, session': Session)
    requires Grows(h, h') && GoodSession(h, token, session)
    requires session'.(lastUsedAtUnix := 0) == session.(lastUsedAtUnix := 0)
    requires h'.trace == h.trace + events && SessionsRevoked(DeviceOf(session')) !in events
    ensures GoodSession(h', token, session')
  {
    assert DeviceOf(session') == DeviceOf(session) && session'.token == session.token;
  }

  lemma SessionsStep(verify: Verifier, s: State, step: Step, token: string)
    requires Enabled(s, step) && Inv(verify, s) && token in Apply(verify, s, step).table.sessions
    ensures GoodSession(Apply(verify, s, step).hist, token, Apply(verify, s, step).table.sessions[token])
  {
    StoredBefore(verify, s, step, token);
    if token in s.table.sessions {
      assert GoodSession(s.hist, token, s.table.sessions[token]);
      assert !(step.Commit? && step.token == token);
      StepGrows(verify, s, step);
      TraceStep(verify, s, step);
      RevokedAreGone(verify, s, step, token);
      SessionSurvives(s.hist, Apply(verify, s, step).hist, NewEvents(s, step), token,
                      s.table.sessions[token], Apply(verify, s, step).table.sessions[token]);
    } else {
      assert GoodThread(verify, s.hist, step.tid, s.threads[step.tid]);
      CommitStep(verify, s, step.tid, token);
    }
  }

  lemma StepKeepsInv(verify: Verifier, s: State, step: Step)
    requires Enabled(s, step) && Inv(verify, s)
    ensures Inv(verify, Apply(verify, s, step))
  {
    var s' := Apply(verify, s, step);
    DevicesStep(verify, s, step);
    NoncesStep(verify, s, step);
    GenerationsStep(verify, s, step);
    forall tid | tid in s'.threads ensures GoodThread(verify, s'.hist, tid, s'.threads[tid]) {
      ThreadsStep(verify, s, step, tid);
    }
    forall token | token in s'.hist.origins ensures GoodOrigin(verify, s', token, s'.hist.origins[token]) {
      OriginsStep(verify, s, step, token);
    }
    forall token | token in s'.table.sessions ensures GoodSession(s'.hist, token, s'.table.sessions[token]) {
      SessionsStep(verify, s, step, token);
    }
  }

  lemma {:induction false} RunKeepsInv(verify: Verifier, s: State, steps: seq<Step>)
    requires Runnable(verify, s, steps) && Inv(verify, s)
    ensures Inv(verify, Run(verify, s, steps))
    decreases |steps|
  {
    if steps != [] {
      StepKeepsInv(verify, s, steps[0]);
      RunKeepsInv(verify, Apply(verify, s, steps[0]), steps[1..]);
    }
  }
}
