/**
 Challenge nonces and sessions as the in-memory stores keep them.

 Every store method is one critical section, so the functions of this module are
 also the atomic steps of the protocol in `SessionProtocol`.
 */
module SessionStores {
  import opened Wrappers

  datatype NonceRecord = NonceRecord(identityRef: string, deviceId: string, expiresAtUnix: int)

  datatype Session = Session(token: string, identityRef: string, deviceId: string,
                             issuedAtUnix: int, expiresAtUnix: int, lastUsedAtUnix: int)

  datatype Device = Device(identityRef: string, deviceId: string)

  datatype SessionTable = SessionTable(sessions: map<string, Session>, generations: map<Device, int>)

  type Nonces = map<string, NonceRecord>

  // ----- Nonces -----

  /** The nonce exists, has not expired, and was issued to this identity and device. */
  predicate NonceValid(nonces: Nonces, nonce: string, device: Device, nowUnix: int) {
    nonce in nonces && nowUnix <= nonces[nonce].expiresAtUnix &&
    Device(nonces[nonce].identityRef, nonces[nonce].deviceId) == device
  }

  /** A matching or expired nonce is deleted; one issued to somebody else stays. */
  function AfterConsume(nonces: Nonces, nonce: string, device: Device, nowUnix: int): Nonces {
    if nonce !in nonces then nonces
    else if nowUnix > nonces[nonce].expiresAtUnix then nonces - {nonce}
    else if Device(nonces[nonce].identityRef, nonces[nonce].deviceId) != device then nonces
    else nonces - {nonce}
  }

  class InMemoryNonceStore {
    var nonces: Nonces

    constructor ()
      ensures nonces == map[]
    {
      nonces := map[];
    }

    method Put(nonce: string, rec: NonceRecord)
      modifies this
      ensures nonces == old(nonces)[nonce := rec]
    {
      nonces := nonces[nonce := rec];
    }

    method Peek(nonce: string, identityRef: string, deviceId: string, nowUnix: int) returns (ok: bool)
      ensures ok == NonceValid(nonces, nonce, Device(identityRef, deviceId), nowUnix)
    {
      if nonce !in nonces {
        return false;
      }
      var rec := nonces[nonce];
      if nowUnix > rec.expiresAtUnix {
        return false;
      }
      return rec.identityRef == identityRef && rec.deviceId == deviceId;
    }

    /** Says yes at most once per nonce: whoever is told yes has removed it. */
    method ConsumeIfValid(nonce: string, identityRef: string, deviceId: string, nowUnix: int) returns (ok: bool)
      modifies this
      ensures ok == NonceValid(old(nonces), nonce, Device(identityRef, deviceId), nowUnix)
      ensures nonces == AfterConsume(old(nonces), nonce, Device(identityRef, deviceId), nowUnix)
      ensures ok ==> nonce in old(nonces) && nonce !in nonces
    {
      if nonce !in nonces {
        return false;
      }
      var rec := nonces[nonce];
      if nowUnix > rec.expiresAtUnix {
        nonces := nonces - {nonce};
        return false;
      }
      if rec.identityRef != identityRef || rec.deviceId != deviceId {
        return false;
      }
      nonces := nonces - {nonce};
      return true;
    }
  }

  // ----- Sessions -----

  function DeviceOf(s: Session): Device {
    Device(s.identityRef, s.deviceId)
  }

  function Generation(t: SessionTable, device: Device): int {
    if device in t.generations then t.generations[device] else 0
  }

  function AfterTouch(t: SessionTable, token: string, nowUnix: int): SessionTable {
    if token in t.sessions
    then t.(sessions := t.sessions[token := t.sessions[token].(lastUsedAtUnix := nowUnix)])
    else t
  }

  function AfterDelete(t: SessionTable, token: string): SessionTable {
    t.(sessions := t.sessions - {token})
  }

  /** Which sessions a bulk deletion is about. */
  datatype Selection = OfIdentity(identityRef: string) | OfDevice(device: Device)

  predicate Selects(which: Selection, s: Session) {
    match which
    case OfIdentity(identityRef) => s.identityRef == identityRef
    case OfDevice(device) => DeviceOf(s) == device
  }

  function Selected(sessions: map<string, Session>, which: Selection): set<string> {
    set token | token in sessions && Selects(which, sessions[token])
  }

  function Without(sessions: map<string, Session>, which: Selection): map<string, Session> {
    map token | token in sessions && !Selects(which, sessions[token]) :: sessions[token]
  }

  function AfterDeleteAll(t: SessionTable, identityRef: string): SessionTable {
    t.(sessions := Without(t.sessions, OfIdentity(identityRef)))
  }

  function AfterCommit(t: SessionTable, s: Session, expectedGeneration: int): SessionTable {
    if Generation(t, DeviceOf(s)) == expectedGeneration then t.(sessions := t.sessions[s.token := s]) else t
  }

  function AfterRevokeAllForDevice(t: SessionTable, device: Device): SessionTable {
    SessionTable(Without(t.sessions, OfDevice(device)),
                 t.generations[device := Generation(t, device) + 1])
  }

  /** Moving one token out of `todo` drops it exactly when it was chosen. */
  lemma DropOne(before: map<string, Session>, chosen: set<string>, todo: set<string>, token: string)
    requires token in todo && todo <= before.Keys
    ensures var rest := todo - {token};
            if token in chosen
            then before - (chosen - rest) == (before - (chosen - todo)) - {token} &&
                 |chosen - rest| == |chosen - todo| + 1
            else before - (chosen - rest) == before - (chosen - todo) && chosen - rest == chosen - todo
  {
    var rest := todo - {token};
    if token in chosen {
      assert chosen - rest == (chosen - todo) + {token};
    } else {
      assert chosen - rest == chosen - todo;
    }
  }

  lemma DropAll(before: map<string, Session>, which: Selection)
    ensures Selected(before, which) - {} == Selected(before, which)
    ensures before - Selected(before, which) == Without(before, which)
  {
  }

  class InMemorySessionStore {
    var sessions: map<string, Session>
    var deviceGenerations: map<Device, int>

    ghost function View(): SessionTable
      reads this
    {
      SessionTable(sessions, deviceGenerations)
    }

    constructor ()
      ensures View() == SessionTable(map[], map[])
    {
      sessions, deviceGenerations := map[], map[];
    }

    method Get(token: string) returns (s: Option<Session>)
      ensures s == if token in sessions then Some(sessions[token]) else None
    {
      if token in sessions { s := Some(sessions[token]); } else { s := None; }
    }

    method TouchLastUsed(token: string, nowUnix: int)
      modifies this
      ensures View() == AfterTouch(old(View()), token, nowUnix)
    {
      if token !in sessions {
        return;
      }
      var s := sessions[token];
      s := s.(lastUsedAtUnix := nowUnix);
      sessions := sessions[token := s];
    }

    method Delete(token: string)
      modifies this
      ensures View() == AfterDelete(old(View()), token)
    {
      sessions := sessions - {token};
    }

    method CurrentDeviceGeneration(identityRef: string, deviceId: string) returns (g: int)
      ensures g == Generation(View(), Device(identityRef, deviceId))
    {
      var key := Device(identityRef, deviceId);
      if key in deviceGenerations { g := deviceGenerations[key]; } else { g := 0; }
    }

    method PutIfDeviceGenerationUnchanged(s: Session, expectedGeneration: int) returns (stored: bool)
      modifies this
      ensures stored == (Generation(old(View()), DeviceOf(s)) == expectedGeneration)
      ensures View() == AfterCommit(old(View()), s, expectedGeneration)
    {
      var current := CurrentDeviceGeneration(s.identityRef, s.deviceId);
      if current != expectedGeneration {
        return false;
      }
      sessions := sessions[s.token := s];
      return true;
    }

    /** Deletes every selected session and counts the deletions. */
    method DeleteWhere(which: Selection) returns (count: nat)
      modifies this`sessions
      ensures sessions == Without(old(sessions), which)
      ensures count == |Selected(old(sessions), which)|
    {
      ghost var before := sessions;
      ghost var chosen := Selected(sessions, which);
      var todo := sessions.Keys;
      count := 0;
      while todo != {}
        invariant todo <= before.Keys
        invariant sessions == before - (chosen - todo)
        invariant count == |chosen - todo|
        decreases |todo|
      {
        var token :| token in todo;
        DropOne(before, chosen, todo, token);
        if Selects(which, sessions[token]) {
          sessions := sessions - {token};
          count := count + 1;
        }
        todo := todo - {token};
      }
      DropAll(before, which);
    }

    method DeleteAllForIdentity(identityRef: string) returns (count: nat)
      modifies this
      ensures View() == AfterDeleteAll(old(View()), identityRef)
      ensures count == |Selected(old(sessions), OfIdentity(identityRef))|
    {
      count := DeleteWhere(OfIdentity(identityRef));
    }

    method RevokeAllForDevice(identityRef: string, deviceId: string) returns (count: nat)
      modifies this
      ensures View() == AfterRevokeAllForDevice(old(View()), Device(identityRef, deviceId))
      ensures count == |Selected(old(sessions), OfDevice(Device(identityRef, deviceId)))|
      ensures forall token :: token in sessions ==> DeviceOf(sessions[token]) != Device(identityRef, deviceId)
    {
      var key := Device(identityRef, deviceId);
      var current := CurrentDeviceGeneration(identityRef, deviceId);
      deviceGenerations := deviceGenerations[key := current + 1];
      count := DeleteWhere(OfDevice(key));
    }
  }
}
