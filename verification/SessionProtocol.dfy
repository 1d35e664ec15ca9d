/**
 Issuing, validating and revoking sessions as a concurrent protocol.

 Any number of requests are in flight.  Each keeps its own program counter and
 moves by one store operation at a time; a step of Identity (bind or revoke a
 device) is one step too.  `Apply` performs one labelled step, so a run is a
 sequence of labels and every interleaving of the service's requests is one.

 `History` records what happened and when.  No step reads it; it is there so
 that the order of events can be talked about.
 */
module SessionProtocol {
  import opened Wrappers
  import opened SessionStores

  const SESSION_LIFETIME := 1800
  const NONCE_LIFETIME := 120

  /** Whether a proof verifies: public key, message, proof. */
  type Verifier = (string, string, string) -> bool

  datatype IssueRequest = IssueRequest(identityRef: string, deviceId: string, nonce: string, proof: string)

  datatype Outcome =
    | Issued(token: string, expiresAtUnix: int)
    | AuditFailed(storedToken: string)
    | InvalidArgument | InvalidNonce | ResolutionFailed | DeviceNotBound | InvalidSignature | RevokedConcurrently

  /** A generation read, and the position of the read in the trace. */
  datatype Capture = Capture(observed: int, at: nat)

  /** A resolved device key, and the position of the lookup in the trace. */
  datatype Resolution = Resolution(key: string, at: nat)

  datatype IssuePc =
    | Begun
    | Captured(c: Capture)
    | Peeked(c: Capture)
    | Resolved(c: Capture, r: Resolution)
    | Verified(c: Capture, r: Resolution)
    | Consumed(c: Capture, r: Resolution)
    | Stored(token: string)
    | Finished(outcome: Outcome)

  /** The requests that present a session token. */
  datatype TokenCall = ValidateSession | RevokeSession | RevokeAllSessions | RevokeSessionsForDevice(deviceId: string)

  datatype TokenPc = Started | LookedUp(session: Session) | Answered(ok: bool)

  datatype Thread =
    | Issuing(req: IssueRequest, now: int, pc: IssuePc)
    | Presenting(call: TokenCall, presented: string, at: int, tpc: TokenPc)

  datatype Event =
    | GenerationRead(tid: nat)
    | DeviceResolved(tid: nat, device: Device, key: string)
    | DeviceBound(device: Device)
    | DeviceRevoked(device: Device)
    | SessionsRevoked(device: Device)

  /** Where a stored session came from. */
  datatype Origin = Origin(tid: nat, device: Device, nonce: string, startedAt: int, proof: string,
                           c: Capture, r: Resolution)

  datatype History = History(trace: seq<Event>, challenges: map<string, NonceRecord>,
                             consumedBy: map<string, nat>, origins: map<string, Origin>)

  datatype State = State(nonces: Nonces, table: SessionTable, bound: map<Device, string>,
                         threads: map<nat, Thread>, hist: History)

  datatype Step =
    | Challenge(device: Device, nonce: string, now: int)
    | BeginIssue(tid: nat, req: IssueRequest, now: int)
    | ReadGeneration(tid: nat, readFails: bool)
    | PeekNonce(tid: nat)
    | ResolveDevice(tid: nat, lookupFails: bool)
    | VerifyProof(tid: nat)
    | ConsumeNonce(tid: nat)
    | Commit(tid: nat, token: string)
    | EmitIssued(tid: nat, auditOk: bool)
    | BeginCall(tid: nat, call: TokenCall, token: string, now: int)
    | LookUp(tid: nat)
    | Act(tid: nat)
    | Bind(device: Device, key: string)
    | RevokeDevice(device: Device)

  const Init := State(map[], SessionTable(map[], map[]), map[], map[], History([], map[], map[], map[]))

  function RequestDevice(req: IssueRequest): Device {
    Device(req.identityRef, req.deviceId)
  }

  function SessionMessage(req: IssueRequest): string {
    var nul := 0 as char;
    "ascend.session.v1.IssueSession" + [nul] + req.identityRef + [nul] + req.deviceId + [nul] + req.nonce
  }

  function SetPc(s: State, tid: nat, pc: IssuePc): State
    requires tid in s.threads && s.threads[tid].Issuing?
  {
    s.(threads := s.threads[tid := s.threads[tid].(pc := pc)])
  }

  function Log(s: State, e: Event): State {
    s.(hist := s.hist.(trace := s.hist.trace + [e]))
  }

  predicate IssuingAt(s: State, tid: nat) {
    tid in s.threads && s.threads[tid].Issuing?
  }

  predicate PresentingAt(s: State, tid: nat) {
    tid in s.threads && s.threads[tid].Presenting?
  }

  /**
   When a step can happen.  Challenge nonces, session tokens, request numbers
   and device ids are fresh whenever they are generated.
   */
  predicate Enabled(s: State, step: Step) {
    match step
    case Challenge(device, nonce, _) => nonce !in s.hist.challenges && device.identityRef != "" && device.deviceId != ""
    case BeginIssue(tid, _, _) => tid !in s.threads
    case ReadGeneration(tid, _) => IssuingAt(s, tid) && s.threads[tid].pc.Begun?
    case PeekNonce(tid) => IssuingAt(s, tid) && s.threads[tid].pc.Captured?
    case ResolveDevice(tid, _) => IssuingAt(s, tid) && s.threads[tid].pc.Peeked?
    case VerifyProof(tid) => IssuingAt(s, tid) && s.threads[tid].pc.Resolved?
    case ConsumeNonce(tid) => IssuingAt(s, tid) && s.threads[tid].pc.Verified?
    case Commit(tid, token) => IssuingAt(s, tid) && s.threads[tid].pc.Consumed? && token !in s.hist.origins
    case EmitIssued(tid, _) => IssuingAt(s, tid) && s.threads[tid].pc.Stored?
    case BeginCall(tid, _, _, _) => tid !in s.threads
    case LookUp(tid) => PresentingAt(s, tid) && s.threads[tid].tpc.Started?
    case Act(tid) => PresentingAt(s, tid) && s.threads[tid].tpc.LookedUp?
    case Bind(device, _) => DeviceBound(device) !in s.hist.trace
    case RevokeDevice(device) => device in s.bound
  }

  function Apply(verify: Verifier, s: State, step: Step): State
    requires Enabled(s, step)
  {
    match step
    case Challenge(device, nonce, now) =>
      var rec := NonceRecord(device.identityRef, device.deviceId, now + NONCE_LIFETIME);
      s.(nonces := s.nonces[nonce := rec], hist := s.hist.(challenges := s.hist.challenges[nonce := rec]))
    case BeginIssue(tid, req, now) =>
      var ok := req.identityRef != "" && req.deviceId != "" && req.nonce != "" && req.proof != "";
      s.(threads := s.threads[tid := Issuing(req, now, if ok then Begun else Finished(InvalidArgument))])
    case ReadGeneration(tid, readFails) =>
      ApplyReadGeneration(s, tid, readFails)
    case PeekNonce(tid) =>
      var t := s.threads[tid];
      SetPc(s, tid, if NonceValid(s.nonces, t.req.nonce, RequestDevice(t.req), t.now)
                    then Peeked(t.pc.c) else Finished(InvalidNonce))
    case ResolveDevice(tid, lookupFails) =>
      ApplyResolve(s, tid, lookupFails)
    case VerifyProof(tid) =>
      var t := s.threads[tid];
      SetPc(s, tid, if verify(t.pc.r.key, SessionMessage(t.req), t.req.proof)
                    then Verified(t.pc.c, t.pc.r) else Finished(InvalidSignature))
    case ConsumeNonce(tid) =>
      ApplyConsume(s, tid)
    case Commit(tid, token) =>
      ApplyCommit(s, tid, token)
    case EmitIssued(tid, auditOk) =>
      var t := s.threads[tid];
      SetPc(s, tid, Finished(if auditOk then Issued(t.pc.token, t.now + SESSION_LIFETIME) else AuditFailed(t.pc.token)))
    case BeginCall(tid, call, token, now) =>
      s.(threads := s.threads[tid := Presenting(call, token, now, Started)])
    case LookUp(tid) =>
      ApplyLookUp(s, tid)
    case Act(tid) =>
      ApplyAct(s, tid)
    case Bind(device, key) =>
      Log(s.(bound := s.bound[device := key]), DeviceBound(device))
    case RevokeDevice(device) =>
      Log(s.(bound := s.bound - {device}), DeviceRevoked(device))
  }

  /** A generation read that fails is folded into 0 by the Postgres store. */
  function ApplyReadGeneration(s: State, tid: nat, readFails: bool): State
    requires Enabled(s, ReadGeneration(tid, readFails))
  {
    var t := s.threads[tid];
    var observed := if readFails then 0 else Generation(s.table, RequestDevice(t.req));
    SetPc(Log(s, GenerationRead(tid)), tid, Captured(Capture(observed, |s.hist.trace|)))
  }

  function ApplyResolve(s: State, tid: nat, lookupFails: bool): State
    requires Enabled(s, ResolveDevice(tid, lookupFails))
  {
    var t := s.threads[tid];
    var device := RequestDevice(t.req);
    if lookupFails then SetPc(s, tid, Finished(ResolutionFailed))
    else if device !in s.bound then SetPc(s, tid, Finished(DeviceNotBound))
    else
      var key := s.bound[device];
      SetPc(Log(s, DeviceResolved(tid, device, key)), tid, Resolved(t.pc.c, Resolution(key, |s.hist.trace|)))
  }

  function ApplyConsume(s: State, tid: nat): State
    requires Enabled(s, ConsumeNonce(tid))
  {
    var t := s.threads[tid];
    var s' := s.(nonces := AfterConsume(s.nonces, t.req.nonce, RequestDevice(t.req), t.now));
    if NonceValid(s.nonces, t.req.nonce, RequestDevice(t.req), t.now)
    then SetPc(s'.(hist := s.hist.(consumedBy := s.hist.consumedBy[t.req.nonce := tid])),
               tid, Consumed(t.pc.c, t.pc.r))
    else SetPc(s', tid, Finished(InvalidNonce))
  }

  function NewSession(t: Thread, token: string): Session
    requires t.Issuing?
  {
    Session(token, t.req.identityRef, t.req.deviceId, t.now, t.now + SESSION_LIFETIME, t.now)
  }

  /** The commit gate: the session is stored only if the generation is still the captured one. */
  function ApplyCommit(s: State, tid: nat, token: string): State
    requires Enabled(s, Commit(tid, token))
  {
    var t := s.threads[tid];
    var device := RequestDevice(t.req);
    var s' := s.(table := AfterCommit(s.table, NewSession(t, token), t.pc.c.observed));
    if Generation(s.table, device) == t.pc.c.observed
    then
      var origin := Origin(tid, device, t.req.nonce, t.now, t.req.proof, t.pc.c, t.pc.r);
      SetPc(s'.(hist := s.hist.(origins := s.hist.origins[token := origin])), tid, Stored(token))
    else SetPc(s', tid, Finished(RevokedConcurrently))
  }

  /** RevokeSession takes any stored session; the other calls need one that has not expired. */
  function ApplyLookUp(s: State, tid: nat): State
    requires Enabled(s, LookUp(tid))
  {
    var t := s.threads[tid];
    var found := t.presented != "" && t.presented in s.table.sessions &&
                 (t.call.RevokeSession? || t.at <= s.table.sessions[t.presented].expiresAtUnix) &&
                 (t.call.RevokeSessionsForDevice? ==> t.call.deviceId != "");
    var tpc := if found then LookedUp(s.table.sessions[t.presented]) else Answered(false);
    s.(threads := s.threads[tid := t.(tpc := tpc)])
  }

  function ApplyAct(s: State, tid: nat): State
    requires Enabled(s, Act(tid))
  {
    var t := s.threads[tid];
    var s' := s.(threads := s.threads[tid := t.(tpc := Answered(true))]);
    match t.call
    case ValidateSession => s'.(table := AfterTouch(s.table, t.presented, t.at))
    case RevokeSession => s'.(table := AfterDelete(s.table, t.presented))
    case RevokeAllSessions => s'.(table := AfterDeleteAll(s.table, t.tpc.session.identityRef))
    case RevokeSessionsForDevice(deviceId) =>
      var device := Device(t.tpc.session.identityRef, deviceId);
      Log(s'.(table := AfterRevokeAllForDevice(s.table, device)), SessionsRevoked(device))
  }

  /** Every label is enabled when its turn comes. */
  predicate Runnable(verify: Verifier, s: State, steps: seq<Step>)
    decreases |steps|
  {
    steps == [] || (Enabled(s, steps[0]) && Runnable(verify, Apply(verify, s, steps[0]), steps[1..]))
  }

  function Run(verify: Verifier, s: State, steps: seq<Step>): State
    requires Runnable(verify, s, steps)
    decreases |steps|
  {
    if steps == [] then s else Run(verify, Apply(verify, s, steps[0]), steps[1..])
  }
}
