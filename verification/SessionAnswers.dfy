/** What the calls of the session service answer and change, stated on the sessions themselves. */
module SessionAnswers {
  import opened Wrappers
  import opened Fields
  import opened SessionStores
  import opened SessionProtocol
  import opened SessionSafety
  import opened SessionTheorems
  import opened SessionRevocation

  // ----- Calls that present a token -----

  /** The session under `token` is the same in both tables, or in neither. */
  predicate SameSession(t: SessionTable, t': SessionTable, token: string) {
    (token in t.sessions <==> token in t'.sessions) && (token in t.sessions ==> t'.sessions[token] == t.sessions[token])
  }

  /** Everything but the call's own thread and the table is as before. */
  predicate OnlyTable(s: State, s': State, tid: nat) {
    && s'.nonces == s.nonces && s'.bound == s.bound && s'.threads.Keys == s.threads.Keys
    && forall t :: t in s.threads && t != tid ==> s'.threads[t] == s.threads[t]
  }

  /** The answer is yes, and exactly the sessions that the call names are gone or touched. */
  ghost predicate Performed(s: State, s': State, tid: nat) {
    PresentingAt(s, tid) && s.threads[tid].tpc.LookedUp? &&
    var t := s.threads[tid];
    var identity := t.tpc.session.identityRef;
    && OnlyTable(s, s', tid) && s'.threads[tid] == Presenting(t.call, t.presented, t.at, Answered(true))
    && match t.call
       case ValidateSession =>
         && s'.table.generations == s.table.generations && s'.table.sessions.Keys == s.table.sessions.Keys
         && (forall token :: token != t.presented ==> SameSession(s.table, s'.table, token))
         && (t.presented in s.table.sessions ==>
               s'.table.sessions[t.presented] == s.table.sessions[t.presented].(lastUsedAtUnix := t.at))
       case RevokeSession =>
         && s'.table.generations == s.table.generations && t.presented !in s'.table.sessions
         && (forall token :: token != t.presented ==> SameSession(s.table, s'.table, token))
       case RevokeAllSessions =>
         && s'.table.generations == s.table.generations
         && (forall token :: token in s.table.sessions ==>
               if s.table.sessions[token].identityRef == identity then token !in s'.table.sessions
               else SameSession(s.table, s'.table, token))
         && s'.table.sessions.Keys <= s.table.sessions.Keys
       case RevokeSessionsForDevice(deviceId) =>
         && (forall d :: Generation(s'.table, d) == Generation(s.table, d) + if d == Device(identity, deviceId) then 1 else 0)
         && (forall token :: token in s.table.sessions ==>
               if s.table.sessions[token].identityRef == identity && s.table.sessions[token].deviceId == deviceId then token !in s'.table.sessions
               else SameSession(s.table, s'.table, token))
         && s'.table.sessions.Keys <= s.table.sessions.Keys
  }

  lemma ActPerforms(verify: Verifier, s: State, tid: nat)
    requires Enabled(s, Act(tid))
    ensures Performed(s, Apply(verify, s, Act(tid)), tid)
  {
  }

  /** The token names a stored session that the call may use. */
  predicate Usable(s: State, t: Thread)
    requires t.Presenting?
  {
    && t.presented != "" && t.presented in s.table.sessions
    && (t.call.RevokeSession? || t.at <= s.table.sessions[t.presented].expiresAtUnix)
    && (t.call.RevokeSessionsForDevice? ==> t.call.deviceId != "")
  }

  /** Looking up changes nothing but the call's own place, and lets it go on exactly with a usable session. */
  lemma LookUpDecides(verify: Verifier, s: State, tid: nat)
    requires Enabled(s, LookUp(tid))
    ensures var s' := Apply(verify, s, LookUp(tid));
            && s'.table == s.table && OnlyTable(s, s', tid)
            && tid in s'.threads
            && s'.threads[tid] == s.threads[tid].(tpc := if Usable(s, s.threads[tid])
                                                         then LookedUp(s.table.sessions[s.threads[tid].presented])
                                                         else Answered(false))
  {
  }

  /** A call that is not disturbed answers yes exactly when its token names a stored session that it may use. */
  lemma UndisturbedCall(verify: Verifier, s: State, tid: nat, call: TokenCall, token: string, now: int)
    requires tid !in s.threads
    ensures var s1 := Apply(verify, s, BeginCall(tid, call, token, now));
            Enabled(s1, LookUp(tid)) &&
            var s2 := Apply(verify, s1, LookUp(tid));
            if Usable(s, Presenting(call, token, now, Started)) then
              && Enabled(s2, Act(tid)) && s2.threads[tid] == Presenting(call, token, now, LookedUp(s.table.sessions[token]))
              && s2.table == s.table && Performed(s2, Apply(verify, s2, Act(tid)), tid)
            else tid in s2.threads && s2.threads[tid] == Presenting(call, token, now, Answered(false)) && s2.table == s.table
  {
    var s1 := Apply(verify, s, BeginCall(tid, call, token, now));
    LookUpDecides(verify, s1, tid);
    if Usable(s, Presenting(call, token, now, Started)) {
      ActPerforms(verify, Apply(verify, s1, LookUp(tid)), tid);
    }
  }

  // ----- Over runs -----

  /** Stored sessions are as their requests made them, but for the time of last use. */
  ghost predicate AsIssued(h: History, token: string, session: Session) {
    && token in h.origins
    && session.(lastUsedAtUnix := 0) ==
       Session(token, h.origins[token].device.identityRef, h.origins[token].device.deviceId,
               h.origins[token].startedAt, h.origins[token].startedAt + 30 * 60, 0)
  }

  ghost predicate CallOk(s: State, t: Thread)
    requires t.Presenting?
  {
    && (t.tpc.LookedUp? || t.tpc == Answered(true) ==> t.presented in s.hist.origins)
    && (t.tpc.LookedUp? ==>
          AsIssued(s.hist, t.presented, t.tpc.session) && (!t.call.RevokeSession? ==> t.at <= t.tpc.session.expiresAtUnix))
    && (t.tpc == Answered(true) && !t.call.RevokeSession? ==> t.at <= s.hist.origins[t.presented].startedAt + 30 * 60)
    && (t.tpc == Answered(true) && t.call.RevokeSession? ==> t.presented !in s.table.sessions)
  }

  ghost predicate CallsInv(s: State) {
    && (forall token :: token in s.table.sessions ==> AsIssued(s.hist, token, s.table.sessions[token]))
    && (forall tid :: PresentingAt(s, tid) ==> CallOk(s, s.threads[tid]))
  }

  lemma SessionsStayAsIssued(verify: Verifier, s: State, step: Step, token: string)
    requires Enabled(s, step) && NoncesInv(s) && CallsInv(s) && token in Apply(verify, s, step).table.sessions
    ensures AsIssued(Apply(verify, s, step).hist, token, Apply(verify, s, step).table.sessions[token])
  {
    StoredBefore(verify, s, step, token);
    StepGrows(verify, s, step);
    if token in s.table.sessions {
      assert AsIssued(s.hist, token, s.table.sessions[token]);
    }
  }

  lemma OtherCallStaysOk(verify: Verifier, s: State, step: Step, tid: nat)
    requires Enabled(s, step) && NoncesInv(s) && CallsInv(s)
    requires PresentingAt(s, tid) && Apply(verify, s, step).threads[tid] == s.threads[tid]
    ensures CallOk(Apply(verify, s, step), s.threads[tid])
  {
    var t, s' := s.threads[tid], Apply(verify, s, step);
    assert CallOk(s, t);
    StepGrows(verify, s, step);
    if t.tpc == Answered(true) && t.call.RevokeSession? && t.presented in s'.table.sessions {
      StoredBefore(verify, s, step, t.presented);
    }
  }

  lemma ActingCallStaysOk(verify: Verifier, s: State, step: Step)
    requires Enabled(s, step) && CallsInv(s) && (step.BeginCall? || step.LookUp? || step.Act?)
    ensures PresentingAt(Apply(verify, s, step), step.tid) && CallOk(Apply(verify, s, step), Apply(verify, s, step).threads[step.tid])
  {
    if step.Act? {
      assert CallOk(s, s.threads[step.tid]);
      ActPerforms(verify, s, step.tid);
    } else if step.LookUp? {
      LookUpDecides(verify, s, step.tid);
    }
  }

  lemma CallsStep(verify: Verifier, s: State, step: Step)
    requires Enabled(s, step) && NoncesInv(s) && CallsInv(s)
    ensures CallsInv(Apply(verify, s, step))
  {
    var s' := Apply(verify, s, step);
    forall token | token in s'.table.sessions ensures AsIssued(s'.hist, token, s'.table.sessions[token]) {
      SessionsStayAsIssued(verify, s, step, token);
    }
    forall tid | PresentingAt(s', tid) ensures CallOk(s', s'.threads[tid]) {
      if (step.BeginCall? || step.LookUp? || step.Act?) && step.tid == tid {
        ActingCallStaysOk(verify, s, step);
      } else {
        PresentingUnchanged(verify, s, step, tid);
        OtherCallStaysOk(verify, s, step, tid);
      }
    }
  }

  lemma PresentingUnchanged(verify: Verifier, s: State, step: Step, tid: nat)
    requires Enabled(s, step) && PresentingAt(Apply(verify, s, step), tid)
    requires !((step.BeginCall? || step.LookUp? || step.Act?) && step.tid == tid)
    ensures PresentingAt(s, tid) && Apply(verify, s, step).threads[tid] == s.threads[tid]
  {
  }

  lemma {:induction false} RunKeepsCalls(verify: Verifier, s: State, steps: seq<Step>)
    requires Runnable(verify, s, steps) && Inv(verify, s) && CallsInv(s)
    ensures CallsInv(Run(verify, s, steps))
    decreases |steps|
  {
    if steps != [] {
      CallsStep(verify, s, steps[0]);
      StepKeepsInv(verify, s, steps[0]);
      RunKeepsCalls(verify, Apply(verify, s, steps[0]), steps[1..]);
    }
  }

  /** RevokeSession signs the session out: once it has answered yes the token is in no stored session, then or at any later time. */
  lemma RevokedSessionIsGone(verify: Verifier, steps: seq<Step>, tid: nat, more: seq<Step>)
    requires Runnable(verify, Init, steps) && Runnable(verify, Run(verify, Init, steps), more)
    requires var s := Run(verify, Init, steps);
             PresentingAt(s, tid) && s.threads[tid].call.RevokeSession? && s.threads[tid].tpc == Answered(true)
    ensures var token := Run(verify, Init, steps).threads[tid].presented;
            token !in Run(verify, Init, steps).table.sessions && token !in Run(verify, Run(verify, Init, steps), more).table.sessions
  {
    RunKeepsCalls(verify, Init, steps);
    var s := Run(verify, Init, steps);
    assert CallOk(s, s.threads[tid]);
    DeletedStaysDeleted(verify, s, more, s.threads[tid].presented);
  }

  /** ValidateSession and the calls that resolve their caller say yes only to tokens of sessions that were issued no more than thirty minutes ago. */
  lemma YesMeansIssued(verify: Verifier, steps: seq<Step>, tid: nat)
    requires Runnable(verify, Init, steps)
    ensures var s := Run(verify, Init, steps);
            PresentingAt(s, tid) && !s.threads[tid].call.RevokeSession? && s.threads[tid].tpc == Answered(true) ==>
              && s.threads[tid].presented in s.hist.origins
              && s.threads[tid].at <= s.hist.origins[s.threads[tid].presented].startedAt + 30 * 60
  {
    RunKeepsCalls(verify, Init, steps);
    var s := Run(verify, Init, steps);
    if PresentingAt(s, tid) {
      assert CallOk(s, s.threads[tid]);
    }
  }

  /** A stored session is the one its request was issued: for its device, from its start, for thirty minutes. */
  lemma StoredAsIssued(verify: Verifier, steps: seq<Step>, token: string)
    requires Runnable(verify, Init, steps) && token in Run(verify, Init, steps).table.sessions
    ensures var s := Run(verify, Init, steps); AsIssued(s.hist, token, s.table.sessions[token])
  {
    RunKeepsCalls(verify, Init, steps);
  }

  // ----- IssueSession -----

  /** The next step of an IssueSession none of whose calls fails, except perhaps its audit event. */
  function IssueStep(tid: nat, pc: IssuePc, token: string, auditOk: bool): Option<Step> {
    match pc
    case Begun => Some(ReadGeneration(tid, false))
    case Captured(_) => Some(PeekNonce(tid))
    case Peeked(_) => Some(ResolveDevice(tid, false))
    case Resolved(_, _) => Some(VerifyProof(tid))
    case Verified(_, _) => Some(ConsumeNonce(tid))
    case Consumed(_, _) => Some(Commit(tid, token))
    case Stored(_) => Some(EmitIssued(tid, auditOk))
    case Finished(_) => None
  }

  function IssueOn(verify: Verifier, s: State, tid: nat, token: string, auditOk: bool, n: nat): State
    requires IssuingAt(s, tid)
    decreases n
  {
    var step := IssueStep(tid, s.threads[tid].pc, token, auditOk);
    if n == 0 || step.None? || !Enabled(s, step.value) then s
    else IssueOn(verify, Apply(verify, s, step.value), tid, token, auditOk, n - 1)
  }

  /** The nonce was given to this device and is not too old. */
  predicate NonceGood(s: State, req: IssueRequest, now: int) {
    && req.nonce in s.nonces && s.nonces[req.nonce].identityRef == req.identityRef && s.nonces[req.nonce].deviceId == req.deviceId
    && now <= s.nonces[req.nonce].expiresAtUnix
  }

  /** Why IssueSession refuses a request, in the order of its checks. */
  function IssueRefusal(verify: Verifier, s: State, req: IssueRequest, now: int): Option<Outcome> {
    var d := Device(req.identityRef, req.deviceId);
    if req.identityRef == "" || req.deviceId == "" || req.nonce == "" || req.proof == "" then Some(InvalidArgument)
    else if !NonceGood(s, req, now) then Some(InvalidNonce)
    else if d !in s.bound then Some(DeviceNotBound)
    else if !verify(s.bound[d], SessionMessage(req), req.proof) then Some(InvalidSignature)
    else None
  }

  lemma IssueTurn(verify: Verifier, s: State, tid: nat, token: string, auditOk: bool, step: Step, n: nat)
    requires IssuingAt(s, tid) && n > 0 && IssueStep(tid, s.threads[tid].pc, token, auditOk) == Some(step) && Enabled(s, step)
    requires IssuingAt(Apply(verify, s, step), tid)
    ensures IssueOn(verify, s, tid, token, auditOk, n) == IssueOn(verify, Apply(verify, s, step), tid, token, auditOk, n - 1)
  {
  }

  /** The request has come this far on its own, starting from `s0`. */
  ghost predicate OnItsWay(verify: Verifier, s0: State, s: State, tid: nat, req: IssueRequest, now: int) {
    IssuingAt(s, tid) && s.threads[tid].req == req && s.threads[tid].now == now &&
    s.table == s0.table && s.bound == s0.bound && s.hist.origins == s0.hist.origins &&
    var d := Device(req.identityRef, req.deviceId);
    var good := NonceGood(s0, req, now);
    match s.threads[tid].pc
    case Begun => s.nonces == s0.nonces
    case Captured(c) => s.nonces == s0.nonces && c.observed == Generation(s0.table, d)
    case Peeked(c) => s.nonces == s0.nonces && c.observed == Generation(s0.table, d) && good
    case Resolved(c, r) => s.nonces == s0.nonces && c.observed == Generation(s0.table, d) && good && d in s0.bound && r.key == s0.bound[d]
    case Verified(c, r) => s.nonces == s0.nonces && c.observed == Generation(s0.table, d) && IssueRefusal(verify, s0, req, now).None?
    case Consumed(c, r) =>
      s.nonces == s0.nonces - {req.nonce} && c.observed == Generation(s0.table, d) && IssueRefusal(verify, s0, req, now).None?
    case _ => false
  }

  /** The request was refused and changed nothing, or it used its nonce and stored its session. */
  ghost predicate IssueEnds(verify: Verifier, s0: State, s: State, tid: nat, req: IssueRequest, now: int, token: string, auditOk: bool) {
    IssuingAt(s, tid) &&
    match IssueRefusal(verify, s0, req, now)
    case Some(outcome) => s.threads[tid].pc == Finished(outcome) && s.table == s0.table && s.nonces == s0.nonces
    case None =>
      && s.threads[tid].pc == Finished(if auditOk then Issued(token, now + 30 * 60) else AuditFailed(token))
      && s.nonces == s0.nonces - {req.nonce} && s.table.generations == s0.table.generations
      && s.table.sessions == s0.table.sessions[token := Session(token, req.identityRef, req.deviceId, now, now + 30 * 60, now)]
  }

  lemma EarlyTurn(verify: Verifier, s0: State, s: State, tid: nat, req: IssueRequest, now: int, token: string, auditOk: bool)
    requires OnItsWay(verify, s0, s, tid, req, now) && EarlyPc(s.threads[tid].pc)
    requires req.identityRef != "" && req.deviceId != "" && req.nonce != "" && req.proof != ""
    ensures var step := IssueStep(tid, s.threads[tid].pc, token, auditOk);
            step.Some? && Enabled(s, step.value) && IssuingAt(Apply(verify, s, step.value), tid) &&
            var s' := Apply(verify, s, step.value);
            (if s'.threads[tid].pc.Finished? then IssueEnds(verify, s0, s', tid, req, now, token, auditOk)
             else OnItsWay(verify, s0, s', tid, req, now) && Rank(s'.threads[tid].pc) == Rank(s.threads[tid].pc) - 1)
  {
  }

  lemma LateTurn(verify: Verifier, s0: State, s: State, tid: nat, req: IssueRequest, now: int, token: string, auditOk: bool)
    requires OnItsWay(verify, s0, s, tid, req, now) && (s.threads[tid].pc.Resolved? || s.threads[tid].pc.Verified?)
    requires req.identityRef != "" && req.deviceId != "" && req.nonce != "" && req.proof != ""
    ensures var step := IssueStep(tid, s.threads[tid].pc, token, auditOk);
            step.Some? && Enabled(s, step.value) && IssuingAt(Apply(verify, s, step.value), tid) &&
            var s' := Apply(verify, s, step.value);
            (if s'.threads[tid].pc.Finished? then IssueEnds(verify, s0, s', tid, req, now, token, auditOk)
             else OnItsWay(verify, s0, s', tid, req, now) && Rank(s'.threads[tid].pc) == Rank(s.threads[tid].pc) - 1)
  {
  }

  lemma LastTurns(verify: Verifier, s0: State, s: State, tid: nat, req: IssueRequest, now: int, token: string, auditOk: bool, n: nat)
    requires OnItsWay(verify, s0, s, tid, req, now) && s.threads[tid].pc.Consumed? && token !in s0.hist.origins && n >= 2
    ensures IssueEnds(verify, s0, IssueOn(verify, s, tid, token, auditOk, n), tid, req, now, token, auditOk)
  {
    var s1 := Apply(verify, s, Commit(tid, token));
    IssueTurn(verify, s, tid, token, auditOk, Commit(tid, token), n);
    IssueTurn(verify, s1, tid, token, auditOk, EmitIssued(tid, auditOk), n - 1);
    IssueDone(verify, Apply(verify, s1, EmitIssued(tid, auditOk)), tid, token, auditOk, n - 2);
  }

  lemma IssueDone(verify: Verifier, s: State, tid: nat, token: string, auditOk: bool, n: nat)
    requires IssuingAt(s, tid) && s.threads[tid].pc.Finished?
    ensures IssueOn(verify, s, tid, token, auditOk, n) == s
  {
  }

  lemma {:induction false} IssueGoesOn(verify: Verifier, s0: State, s: State, tid: nat, req: IssueRequest, now: int,
                                       token: string, auditOk: bool, n: nat)
    requires OnItsWay(verify, s0, s, tid, req, now) && token !in s0.hist.origins && n >= Rank(s.threads[tid].pc) + 2
    requires req.identityRef != "" && req.deviceId != "" && req.nonce != "" && req.proof != ""
    ensures IssueEnds(verify, s0, IssueOn(verify, s, tid, token, auditOk, n), tid, req, now, token, auditOk)
    decreases n
  {
    if s.threads[tid].pc.Consumed? {
      LastTurns(verify, s0, s, tid, req, now, token, auditOk, n);
    } else {
      if EarlyPc(s.threads[tid].pc) {
        EarlyTurn(verify, s0, s, tid, req, now, token, auditOk);
      } else {
        LateTurn(verify, s0, s, tid, req, now, token, auditOk);
      }
      var step := IssueStep(tid, s.threads[tid].pc, token, auditOk).value;
      var s' := Apply(verify, s, step);
      IssueTurn(verify, s, tid, token, auditOk, step, n);
      if s'.threads[tid].pc.Finished? {
        IssueDone(verify, s', tid, token, auditOk, n - 1);
      } else {
        IssueGoesOn(verify, s0, s', tid, req, now, token, auditOk, n - 1);
      }
    }
  }

  /**
   IssueSession, undisturbed: it answers with the first reason against the request
   and changes nothing, or it uses the nonce up and stores a session of thirty
   minutes, also when its audit event is refused.
   */
  lemma UndisturbedIssue(verify: Verifier, s: State, tid: nat, req: IssueRequest, now: int, token: string, auditOk: bool)
    requires tid !in s.threads && token !in s.hist.origins
    ensures var s1 := Apply(verify, s, BeginIssue(tid, req, now));
            IssuingAt(s1, tid) && IssueEnds(verify, s, IssueOn(verify, s1, tid, token, auditOk, 7), tid, req, now, token, auditOk)
  {
    var s1 := Apply(verify, s, BeginIssue(tid, req, now));
    if s1.threads[tid].pc.Finished? {
      IssueDone(verify, s1, tid, token, auditOk, 7);
    } else {
      IssueGoesOn(verify, s, s1, tid, req, now, token, auditOk, 7);
    }
  }

  /** A challenge is for one device and two minutes. */
  lemma ChallengeGives(verify: Verifier, s: State, device: Device, nonce: string, now: int)
    requires Enabled(s, Challenge(device, nonce, now))
    ensures var s' := Apply(verify, s, Challenge(device, nonce, now));
            && s'.nonces == s.nonces[nonce := NonceRecord(device.identityRef, device.deviceId, now + 2 * 60)]
            && s'.table == s.table && s'.bound == s.bound && s'.threads == s.threads
  {
  }

  /** Consuming says no more about other nonces, and leaves a nonce that was given to somebody else and is not too old. */
  lemma ConsumeRemoves(nonces: Nonces, nonce: string, device: Device, now: int, other: string)
    ensures var nonces' := AfterConsume(nonces, nonce, device, now);
            && (other in nonces' ==> other in nonces && nonces'[other] == nonces[other])
            && (other in nonces && other !in nonces' <==>
                  && other == nonce && nonce in nonces
                  && (now > nonces[nonce].expiresAtUnix
                      || (nonces[nonce].identityRef == device.identityRef && nonces[nonce].deviceId == device.deviceId)))
  {
  }

  // ----- What the device signs, and with which key -----

  /** The proof is over four fields between NULs, in this order. */
  lemma SessionMessageFields(req: IssueRequest)
    requires NulFree(req.identityRef) && NulFree(req.deviceId) && NulFree(req.nonce)
    ensures Split(SessionMessage(req)) == ["ascend.session.v1.IssueSession", req.identityRef, req.deviceId, req.nonce]
  {
    var tail := req.deviceId + ([NUL] + req.nonce);
    assert SessionMessage(req) == "ascend.session.v1.IssueSession" + ([NUL] + (req.identityRef + ([NUL] + tail)));
    assert NulFree("ascend.session.v1.IssueSession");
    SplitFirst("ascend.session.v1.IssueSession", req.identityRef + ([NUL] + tail));
    SplitFirst(req.identityRef, tail);
    SplitFirst(req.deviceId, req.nonce);
    SplitLast(req.nonce);
  }

  /** Identity has bound every key that is bound or was resolved, and bound it to that device. */
  ghost predicate KeysFrom(s: State, past: seq<Step>) {
    && (forall d :: d in s.bound ==> Bind(d, s.bound[d]) in past)
    && (forall e :: e in s.hist.trace && e.DeviceResolved? ==> Bind(e.device, e.key) in past)
  }

  lemma KeysStep(verify: Verifier, s: State, past: seq<Step>, step: Step)
    requires Enabled(s, step) && KeysFrom(s, past)
    ensures KeysFrom(Apply(verify, s, step), past + [step])
  {
  }

  lemma {:induction false} KeysRun(verify: Verifier, s: State, past: seq<Step>, steps: seq<Step>)
    requires Runnable(verify, s, steps) && KeysFrom(s, past)
    ensures KeysFrom(Run(verify, s, steps), past + steps)
    decreases |steps|
  {
    if steps == [] {
      assert past + steps == past;
    } else {
      KeysStep(verify, s, past, steps[0]);
      KeysRun(verify, Apply(verify, s, steps[0]), past + [steps[0]], steps[1..]);
      assert past + [steps[0]] + steps[1..] == past + steps;
    }
  }

  /** Every session stems from a proof over its identity, device and nonce under the key that Identity bound to the device. */
  lemma SessionsAreProven(verify: Verifier, steps: seq<Step>, token: string)
    requires Runnable(verify, Init, steps) && token in Run(verify, Init, steps).hist.origins
    ensures var o := Run(verify, Init, steps).hist.origins[token];
            && Bind(o.device, o.r.key) in steps
            && verify(o.r.key, SessionMessage(IssueRequest(o.device.identityRef, o.device.deviceId, o.nonce, o.proof)), o.proof)
  {
    KeysRun(verify, Init, [], steps);
    OneSessionPerNonce(verify, steps, token, token);
    var s := Run(verify, Init, steps);
    var o := s.hist.origins[token];
    var at :| o.c.at < at < |s.hist.trace| && s.hist.trace[at] == DeviceResolved(o.tid, o.device, o.r.key);
    assert s.hist.trace[at] in s.hist.trace;
    assert [] + steps == steps;
  }

  // ----- Reads that fail -----

  /** The request has captured a generation that is not the device's any more, and has committed nothing. */
  ghost predicate ShutOut(verify: Verifier, s: State, tid: nat) {
    IssuingAt(s, tid) && !CanCommit(verify, s, s.threads[tid]) && CommittedToken(s.threads[tid]).None?
  }

  lemma ShutOutByOthers(verify: Verifier, s: State, step: Step, tid: nat)
    requires Enabled(s, step) && Inv(verify, s) && ShutOut(verify, s, tid) && Actor(step) != Some(tid)
    ensures ShutOut(verify, Apply(verify, s, step), tid)
  {
    ThreadIsThere(verify, s, step, tid);
    OthersUnchanged(verify, s, step, tid);
    OthersGiveNoHope(verify, s, step, tid, s.threads[tid]);
  }

  lemma ShutOutStep(verify: Verifier, s: State, step: Step, tid: nat)
    requires Enabled(s, step) && Inv(verify, s) && ShutOut(verify, s, tid)
    ensures ShutOut(verify, Apply(verify, s, step), tid)
  {
    if Actor(step) != Some(tid) {
      ShutOutByOthers(verify, s, step, tid);
    } else if step.ReadGeneration? || step.PeekNonce? || step.ResolveDevice? {
      EarlyStepGivesNoHope(verify, s, step, tid);
    } else {
      LateStepGivesNoHope(verify, s, step, tid);
    }
  }

  lemma ThreadIsThere(verify: Verifier, s: State, step: Step, tid: nat)
    requires Enabled(s, step) && tid in s.threads
    ensures tid in Apply(verify, s, step).threads
  {
  }

  lemma {:induction false} ShutOutStays(verify: Verifier, s: State, steps: seq<Step>, tid: nat)
    requires Runnable(verify, s, steps) && Inv(verify, s) && ShutOut(verify, s, tid)
    ensures ShutOut(verify, Run(verify, s, steps), tid)
    decreases |steps|
  {
    if steps != [] {
      ShutOutStep(verify, s, steps[0], tid);
      StepKeepsInv(verify, s, steps[0]);
      ShutOutStays(verify, Apply(verify, s, steps[0]), steps[1..], tid);
    }
  }

  /** A generation read that fails can only refuse: once the device's sessions were ever revoked, such a request commits nothing. */
  lemma FailedReadFailsClosed(verify: Verifier, before: seq<Step>, tid: nat, after: seq<Step>)
    requires Runnable(verify, Init, before)
    requires var s := Run(verify, Init, before);
             Enabled(s, ReadGeneration(tid, true)) && SessionsRevoked(RequestDevice(s.threads[tid].req)) in s.hist.trace
    requires Runnable(verify, Apply(verify, Run(verify, Init, before), ReadGeneration(tid, true)), after)
    ensures var s := Run(verify, Apply(verify, Run(verify, Init, before), ReadGeneration(tid, true)), after);
            IssuingAt(s, tid) && CommittedToken(s.threads[tid]).None?
  {
    var s := Run(verify, Init, before);
    var s' := Apply(verify, s, ReadGeneration(tid, true));
    RunKeepsInv(verify, Init, before);
    StepKeepsInv(verify, s, ReadGeneration(tid, true));
    RevokedCounts(s.hist.trace, RequestDevice(s.threads[tid].req));
    assert Generation(s.table, RequestDevice(s.threads[tid].req)) > 0;
    ShutOutStays(verify, s', after, tid);
  }

  lemma {:induction false} RevokedCounts(trace: seq<Event>, d: Device)
    requires SessionsRevoked(d) in trace
    ensures Revocations(trace, d) > 0
  {
    if trace[|trace| - 1] != SessionsRevoked(d) {
      RevokedCounts(trace[..|trace| - 1], d);
    }
  }
}
