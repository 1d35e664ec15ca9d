/**
 Identity: binding and revoking devices, and why a binding proof works once.

 Signature verification is a parameter; each call of the service is one step.
 */
module IdentityBinding {
  import opened Wrappers
  import opened Bytes
  import opened Fields
  import Base64

  const KEY_LEN: nat := 32
  const SIGNATURE_LEN: nat := 64
  const DOMAIN := "ascend.identity.v1.BindDevice"

  type Octets = ByteString

  datatype Device = Device(deviceId: string, name: string, publicKey: Octets)

  datatype Record = Record(publicKey: Octets, devices: seq<Device>, epoch: nat)

  // ----- The signed message -----

  function Decimal(n: nat): string {
    if n < 10 then [('0' as int + n) as char] else Decimal(n / 10) + [('0' as int + n % 10) as char]
  }

  function BindingMessage(identityRef: string, deviceKey: Octets, deviceName: string, epoch: nat): string {
    DOMAIN + ([NUL] + (identityRef + ([NUL] + (Base64.Encoding(deviceKey) + ([NUL] + (deviceName + ([NUL] + Decimal(epoch))))))))
  }

  lemma {:induction false} DecimalIsNulFree(n: nat)
    ensures NulFree(Decimal(n))
  {
    if n >= 10 {
      DecimalIsNulFree(n / 10);
    }
  }

  lemma {:induction false} DecimalIsInjective(m: nat, n: nat)
    requires Decimal(m) == Decimal(n)
    ensures m == n
  {
    if m >= 10 && n >= 10 {
      var a, b := Decimal(m / 10), Decimal(n / 10);
      assert Decimal(m)[..|Decimal(m)| - 1] == a && Decimal(n)[..|Decimal(n)| - 1] == b;
      assert Decimal(m)[|a|] == ('0' as int + m % 10) as char && Decimal(n)[|b|] == ('0' as int + n % 10) as char;
      DecimalIsInjective(m / 10, n / 10);
    } else {
      DecimalIsNotEmpty(m / 10);
      DecimalIsNotEmpty(n / 10);
      assert Decimal(m)[0] == Decimal(n)[0];
    }
  }

  lemma {:induction false} DecimalIsNotEmpty(n: nat)
    ensures |Decimal(n)| > 0
  {
  }

  lemma EncodingIsNulFree(key: Octets)
    ensures NulFree(Base64.Encoding(key))
  {
    var values := Base64.Groups(Base64.BitsOf(key));
    var letters := Base64.Letters(values);
    forall i: nat | i < |letters| ensures letters[i] != NUL {
      assert letters[i] == Base64.Letter(values[i]);
    }
  }

  /** A field without NUL in front ends at the first NUL. */
  lemma FirstFieldAgrees(a: string, x: string, b: string, y: string)
    requires NulFree(a) && NulFree(b) && a + ([NUL] + x) == b + ([NUL] + y)
    ensures a == b && x == y
  {
    var s, t := a + ([NUL] + x), b + ([NUL] + y);
    assert s[|a|] == NUL && t[|b|] == NUL;
    assert |a| == |b|;
    assert s[..|a|] == a && t[..|b|] == b && s[|a| + 1..] == x && t[|b| + 1..] == y;
  }

  /** A field without NUL at the end starts after the last NUL. */
  lemma LastFieldAgrees(x: string, a: string, y: string, b: string)
    requires NulFree(a) && NulFree(b) && x + ([NUL] + a) == y + ([NUL] + b)
    ensures x == y && a == b
  {
    var s, t := x + ([NUL] + a), y + ([NUL] + b);
    assert s[|x|] == NUL && t[|y|] == NUL;
    assert |x| == |y|;
    assert s[..|x|] == x && t[..|y|] == y && s[|x| + 1..] == a && t[|y| + 1..] == b;
  }

  /** The message determines its four fields, also when the device name contains NUL. */
  lemma MessageIsInjective(ref: string, key: Octets, name: string, epoch: nat, ref': string, key': Octets, name': string, epoch': nat)
    requires NulFree(ref) && NulFree(ref') && BindingMessage(ref, key, name, epoch) == BindingMessage(ref', key', name', epoch')
    ensures ref == ref' && key == key' && name == name' && epoch == epoch'
  {
    var tail, tail' := name + ([NUL] + Decimal(epoch)), name' + ([NUL] + Decimal(epoch'));
    var middle, middle' := Base64.Encoding(key) + ([NUL] + tail), Base64.Encoding(key') + ([NUL] + tail');
    EncodingIsNulFree(key);
    EncodingIsNulFree(key');
    DecimalIsNulFree(epoch);
    DecimalIsNulFree(epoch');
    assert NulFree(DOMAIN);
    FirstFieldAgrees(DOMAIN, ref + ([NUL] + middle), DOMAIN, ref' + ([NUL] + middle'));
    FirstFieldAgrees(ref, middle, ref', middle');
    FirstFieldAgrees(Base64.Encoding(key), tail, Base64.Encoding(key'), tail');
    LastFieldAgrees(name, Decimal(epoch), name', Decimal(epoch'));
    Base64.EncodingIsInjective(key, key');
    DecimalIsInjective(epoch, epoch');
  }

  /** The number that decimal digits stand for. */
  function ValueOf(digits: string): int {
    if digits == "" then 0
    else 10 * ValueOf(digits[..|digits| - 1]) + (digits[|digits| - 1] as int - '0' as int)
  }

  lemma {:induction false} DecimalIsRead(n: nat)
    ensures ValueOf(Decimal(n)) == n && |Decimal(n)| > 0 && (|Decimal(n)| > 1 ==> Decimal(n)[0] != '0')
    ensures forall c :: c in Decimal(n) ==> '0' <= c <= '9'
  {
    if n >= 10 {
      DecimalIsRead(n / 10);
      assert Decimal(n)[..|Decimal(n)| - 1] == Decimal(n / 10);
      assert n / 10 < 10 ==> Decimal(n / 10)[0] != '0';
    } else {
      assert Decimal(n)[..0] == "";
    }
  }

  /** What is signed: five fields between NULs, in this order; a name with NULs in it gives more. */
  lemma MessageFields(ref: string, key: Octets, name: string, epoch: nat)
    requires NulFree(ref) && NulFree(name)
    ensures Split(BindingMessage(ref, key, name, epoch)) ==
            ["ascend.identity.v1.BindDevice", ref, Base64.Encoding(key), name, Decimal(epoch)]
  {
    EncodingIsNulFree(key);
    DecimalIsNulFree(epoch);
    var tail := name + ([NUL] + Decimal(epoch));
    var middle := Base64.Encoding(key) + ([NUL] + tail);
    assert NulFree(DOMAIN);
    SplitFirst(DOMAIN, ref + ([NUL] + middle));
    SplitFirst(ref, middle);
    SplitFirst(Base64.Encoding(key), tail);
    SplitFirst(name, Decimal(epoch));
    SplitLast(Decimal(epoch));
  }

  // ----- Authorization -----

  /** `verify(key, message, signature)`, asked only for keys and signatures of the right size. */
  type Verifier = (Octets, string, Octets) -> bool

  predicate Verifies(verify: Verifier, key: Octets, message: string, proof: Octets) {
    |key| == KEY_LEN && |proof| == SIGNATURE_LEN && verify(key, message, proof)
  }

  /** A signature is good for one message, whatever the key. */
  ghost predicate FitsOneMessage(verify: Verifier) {
    forall key, key', message, message', proof ::
      Verifies(verify, key, message, proof) && Verifies(verify, key', message', proof) ==> message == message'
  }

  /** The key that authorizes the binding, if there is one: the root key, or the first device key that verifies the proof. */
  function Authority(verify: Verifier, ref: string, record: Record, deviceKey: Octets, deviceName: string, proof: Octets): Option<Octets> {
    var message := BindingMessage(ref, deviceKey, deviceName, record.epoch);
    if Verifies(verify, record.publicKey, message, proof) then Some(record.publicKey)
    else FirstVerifying(verify, record.devices, message, proof)
  }

  function FirstVerifying(verify: Verifier, devices: seq<Device>, message: string, proof: Octets): (key: Option<Octets>)
    ensures key.None? <==> forall i :: 0 <= i < |devices| ==> !Verifies(verify, devices[i].publicKey, message, proof)
    ensures key.Some? ==> Verifies(verify, key.value, message, proof) && exists i :: 0 <= i < |devices| && devices[i].publicKey == key.value
  {
    if devices == [] then None
    else if Verifies(verify, devices[0].publicKey, message, proof) then Some(devices[0].publicKey)
    else FirstVerifying(verify, devices[1..], message, proof)
  }

  predicate Authorizes(verify: Verifier, ref: string, record: Record, deviceKey: Octets, deviceName: string, proof: Octets) {
    Authority(verify, ref, record, deviceKey, deviceName, proof).Some?
  }

  predicate HasKey(record: Record, key: Octets) {
    exists i :: 0 <= i < |record.devices| && record.devices[i].publicKey == key
  }

  /** The place of the first device with the id. */
  function IndexOf(devices: seq<Device>, deviceId: string): (k: nat)
    ensures k <= |devices| && (k < |devices| ==> devices[k].deviceId == deviceId)
    ensures forall i :: 0 <= i < k ==> devices[i].deviceId != deviceId
  {
    if devices == [] || devices[0].deviceId == deviceId then 0 else 1 + IndexOf(devices[1..], deviceId)
  }

  function WithDevice(record: Record, device: Device): Record {
    record.(devices := record.devices + [device], epoch := record.epoch + 1)
  }

  function WithoutDevice(record: Record, k: nat): Record
    requires k < |record.devices|
  {
    record.(devices := record.devices[..k] + record.devices[k + 1..], epoch := record.epoch + 1)
  }

  datatype Error = InvalidArgument | IdentityNotFound | DuplicateDeviceKey | InvalidSignature | DeviceNotFound | AuditFailed

  /** Why a bind is refused, if it is. */
  function BindRefusal(verify: Verifier, records: map<string, Record>, ref: string, key: Octets, name: string, proof: Octets): Option<Error> {
    if ref == "" || |key| != KEY_LEN || name == "" then Some(InvalidArgument)
    else if ref !in records then Some(IdentityNotFound)
    else if HasKey(records[ref], key) then Some(DuplicateDeviceKey)
    else if !Authorizes(verify, ref, records[ref], key, name, proof) then Some(InvalidSignature)
    else None
  }

  function RevokeRefusal(records: map<string, Record>, ref: string, deviceId: string): Option<Error> {
    if ref == "" || deviceId == "" then Some(InvalidArgument)
    else if ref !in records then Some(IdentityNotFound)
    else if IndexOf(records[ref].devices, deviceId) == |records[ref].devices| then Some(DeviceNotFound)
    else None
  }

  class Service {
    var records: map<string, Record>
    const verify: Verifier

    constructor (verify: Verifier)
      ensures records == map[] && this.verify == verify
    {
      records := map[];
      this.verify := verify;
    }

    method AuthorizesBinding(ref: string, record: Record, key: Octets, name: string, proof: Octets) returns (ok: bool)
      ensures ok == Authorizes(verify, ref, record, key, name, proof)
    {
      var message := BindingMessage(ref, key, name, record.epoch);
      if Verifies(verify, record.publicKey, message, proof) {
        return true;
      }
      for i := 0 to |record.devices|
        invariant forall k :: 0 <= k < i ==> !Verifies(verify, record.devices[k].publicKey, message, proof)
      {
        if Verifies(verify, record.devices[i].publicKey, message, proof) {
          return true;
        }
      }
      return false;
    }

    /** `deviceId` is freshly generated; a refused audit event is reported after the device has been bound. */
    method BindDevice(ref: string, key: Octets, name: string, proof: Octets, deviceId: string, auditOk: bool)
      returns (r: Result<nat, Error>)
      modifies this
      ensures var refusal := BindRefusal(verify, old(records), ref, key, name, proof);
              && (refusal.Some? ==> r == Err(refusal.value) && records == old(records))
              && (refusal.None? ==>
                    && records == old(records)[ref := WithDevice(old(records)[ref], Device(deviceId, name, key))]
                    && r == if auditOk then Ok(records[ref].epoch) else Err(AuditFailed))
    {
      if ref == "" || |key| != KEY_LEN || name == "" {
        return Err(InvalidArgument);
      }
      if ref !in records {
        return Err(IdentityNotFound);
      }
      var record := records[ref];
      for i := 0 to |record.devices|
        invariant forall k :: 0 <= k < i ==> record.devices[k].publicKey != key
      {
        if record.devices[i].publicKey == key {
          return Err(DuplicateDeviceKey);
        }
      }
      var authorized := AuthorizesBinding(ref, record, key, name, proof);
      if !authorized {
        return Err(InvalidSignature);
      }
      record := record.(devices := record.devices + [Device(deviceId, name, key)]);
      record := record.(epoch := record.epoch + 1);
      records := records[ref := record];
      if !auditOk {
        return Err(AuditFailed);
      }
      return Ok(record.epoch);
    }

    method RevokeDevice(ref: string, deviceId: string, auditOk: bool) returns (r: Result<nat, Error>)
      modifies this
      ensures var refusal := RevokeRefusal(old(records), ref, deviceId);
              && (refusal.Some? ==> r == Err(refusal.value) && records == old(records))
              && (refusal.None? ==>
                    && records == old(records)[ref := WithoutDevice(old(records)[ref], IndexOf(old(records)[ref].devices, deviceId))]
                    && r == if auditOk then Ok(records[ref].epoch) else Err(AuditFailed))
    {
      if ref == "" || deviceId == "" {
        return Err(InvalidArgument);
      }
      if ref !in records {
        return Err(IdentityNotFound);
      }
      var record := records[ref];
      var found := -1;
      for i := 0 to |record.devices|
        invariant found == -1
        invariant forall k :: 0 <= k < i ==> record.devices[k].deviceId != deviceId
      {
        if record.devices[i].deviceId == deviceId {
          found := i;
          break;
        }
      }
      if found == -1 {
        return Err(DeviceNotFound);
      }
      assert found == IndexOf(record.devices, deviceId);
      record := record.(devices := record.devices[..found] + record.devices[found + 1..]);
      record := record.(epoch := record.epoch + 1);
      records := records[ref := record];
      if !auditOk {
        return Err(AuditFailed);
      }
      return Ok(record.epoch);
    }
  }

  // ----- Runs -----

  /** `Create` stands for CreateIdentity with a generated reference. */
  datatype Call =
    | Create(ref: string, publicKey: Octets, first: Device)
    | Bind(ref: string, key: Octets, name: string, proof: Octets, deviceId: string)
    | Revoke(ref: string, deviceId: string)

  /** A proof that was accepted, at which epoch of which identity, and the key it was verified with. */
  datatype Accepted = Accepted(ref: string, key: Octets, name: string, epoch: nat, proof: Octets, signer: Octets)

  datatype State = State(records: map<string, Record>, accepted: seq<Accepted>)

  /** References and device ids are generated: fresh, and references without NUL. */
  predicate Possible(s: State, call: Call) {
    && (call.Create? ==> call.ref != "" && call.ref !in s.records && NulFree(call.ref) && call.first.deviceId != "")
    && (call.Bind? ==> call.deviceId != "")
    && (call.Bind? && call.ref in s.records ==>
          forall i :: 0 <= i < |s.records[call.ref].devices| ==> s.records[call.ref].devices[i].deviceId != call.deviceId)
  }

  function Apply(verify: Verifier, s: State, call: Call): State {
    match call
    case Create(ref, publicKey, first) => s.(records := s.records[ref := Record(publicKey, [first], 0)])
    case Bind(ref, key, name, proof, deviceId) =>
      if BindRefusal(verify, s.records, ref, key, name, proof).Some? then s
      else State(s.records[ref := WithDevice(s.records[ref], Device(deviceId, name, key))],
                 s.accepted + [Accepted(ref, key, name, s.records[ref].epoch, proof,
                                       Authority(verify, ref, s.records[ref], key, name, proof).value)])
    case Revoke(ref, deviceId) =>
      if RevokeRefusal(s.records, ref, deviceId).Some? then s
      else s.(records := s.records[ref := WithoutDevice(s.records[ref], IndexOf(s.records[ref].devices, deviceId))])
  }

  predicate PossibleRun(verify: Verifier, s: State, calls: seq<Call>)
    decreases |calls|
  {
    calls == [] || (Possible(s, calls[0]) && PossibleRun(verify, Apply(verify, s, calls[0]), calls[1..]))
  }

  function Run(verify: Verifier, s: State, calls: seq<Call>): State
    decreases |calls|
  {
    if calls == [] then s else Run(verify, Apply(verify, s, calls[0]), calls[1..])
  }

  const Empty := State(map[], [])

  /** The accepted proof verified against the message of its fields, under the key recorded with it. */
  predicate Verified(verify: Verifier, a: Accepted) {
    Verifies(verify, a.signer, BindingMessage(a.ref, a.key, a.name, a.epoch), a.proof)
  }

  ghost predicate Inv(verify: Verifier, s: State) {
    && (forall ref :: ref in s.records ==> NulFree(ref))
    && (forall i :: 0 <= i < |s.accepted| ==>
                      && Verified(verify, s.accepted[i]) && s.accepted[i].ref in s.records
                      && s.accepted[i].epoch < s.records[s.accepted[i].ref].epoch)
    && (forall i, j :: 0 <= i < j < |s.accepted| && s.accepted[i].ref == s.accepted[j].ref ==> s.accepted[i].epoch < s.accepted[j].epoch)
  }

  lemma StepKeeps(verify: Verifier, s: State, call: Call)
    requires Inv(verify, s) && Possible(s, call)
    ensures Inv(verify, Apply(verify, s, call))
  {
    if call.Bind? && BindRefusal(verify, s.records, call.ref, call.key, call.name, call.proof).None? {
      AuthorizedIsVerified(verify, s.records[call.ref], call);
    }
  }

  lemma AuthorizedIsVerified(verify: Verifier, record: Record, call: Call)
    requires call.Bind? && Authorizes(verify, call.ref, record, call.key, call.name, call.proof)
    ensures var signer := Authority(verify, call.ref, record, call.key, call.name, call.proof).value;
            Verified(verify, Accepted(call.ref, call.key, call.name, record.epoch, call.proof, signer))
  {
  }

  lemma {:induction false} RunKeeps(verify: Verifier, s: State, calls: seq<Call>)
    requires Inv(verify, s) && PossibleRun(verify, s, calls)
    ensures Inv(verify, Run(verify, s, calls))
    decreases |calls|
  {
    if calls != [] {
      StepKeeps(verify, s, calls[0]);
      RunKeeps(verify, Apply(verify, s, calls[0]), calls[1..]);
    }
  }

  /**
   Over every run of creations, binds and revokes, no proof is accepted twice:
   not by the same identity, not by another, not for another device or name,
   and not after the device it bound has been revoked.
   */
  lemma ProofsWorkOnce(verify: Verifier, calls: seq<Call>, i: nat, j: nat)
    requires FitsOneMessage(verify) && PossibleRun(verify, Empty, calls)
    requires var s := Run(verify, Empty, calls); i < j < |s.accepted|
    ensures var s := Run(verify, Empty, calls); s.accepted[i].proof != s.accepted[j].proof
  {
    RunKeeps(verify, Empty, calls);
    var s := Run(verify, Empty, calls);
    var a, b := s.accepted[i], s.accepted[j];
    assert Verified(verify, a) && Verified(verify, b);
    if a.proof == b.proof {
      MessageIsInjective(a.ref, a.key, a.name, a.epoch, b.ref, b.key, b.name, b.epoch);
    }
  }

  // ----- Who may bind -----

  /** The key is the identity's root key, or that of a device bound to it now. */
  predicate MaySign(record: Record, key: Octets) {
    key == record.publicKey || exists i :: 0 <= i < |record.devices| && record.devices[i].publicKey == key
  }

  /** The proof is a signature of the binding, at the current epoch, by the root key or by a bound device's. */
  ghost predicate Signed(verify: Verifier, record: Record, ref: string, key: Octets, name: string, proof: Octets, signer: Octets) {
    && MaySign(record, signer) && |signer| == 32 && |proof| == 64
    && verify(signer, BindingMessage(ref, key, name, record.epoch), proof)
  }

  /** What BindDevice asks besides the proof: an identity, a name, and a 32-byte key that none of its devices has. */
  predicate WellFormed(records: map<string, Record>, ref: string, key: Octets, name: string) {
    && ref != "" && name != "" && |key| == 32 && ref in records
    && forall i :: 0 <= i < |records[ref].devices| ==> records[ref].devices[i].publicKey != key
  }

  /**
   A bind is accepted exactly when it is well-formed and signed by the root key or
   by the key of a device bound at that moment, which is recorded; then the device
   is added at the end and the epoch moves by one.
   */
  lemma BindAcceptedIffSigned(verify: Verifier, s: State, ref: string, key: Octets, name: string, proof: Octets, deviceId: string)
    ensures var s' := Apply(verify, s, Bind(ref, key, name, proof, deviceId));
            if WellFormed(s.records, ref, key, name) && exists signer :: Signed(verify, s.records[ref], ref, key, name, proof, signer) then
              && |s'.accepted| == |s.accepted| + 1 && s'.accepted[..|s.accepted|] == s.accepted
              && (var a := s'.accepted[|s.accepted|];
                  a == Accepted(ref, key, name, s.records[ref].epoch, proof, a.signer)
                  && Signed(verify, s.records[ref], ref, key, name, proof, a.signer))
              && s'.records == s.records[ref := Record(s.records[ref].publicKey,
                                                       s.records[ref].devices + [Device(deviceId, name, key)],
                                                       s.records[ref].epoch + 1)]
            else s' == s
  {
    if WellFormed(s.records, ref, key, name) {
      SignedIffAuthorized(verify, s.records[ref], ref, key, name, proof);
    }
  }

  lemma SignedIffAuthorized(verify: Verifier, record: Record, ref: string, key: Octets, name: string, proof: Octets)
    ensures Authorizes(verify, ref, record, key, name, proof) <==> exists signer :: Signed(verify, record, ref, key, name, proof, signer)
    ensures Authorizes(verify, ref, record, key, name, proof) ==>
              Signed(verify, record, ref, key, name, proof, Authority(verify, ref, record, key, name, proof).value)
  {
    var message := BindingMessage(ref, key, name, record.epoch);
    assert Verifies(verify, record.publicKey, message, proof) ==> Signed(verify, record, ref, key, name, proof, record.publicKey);
    forall i | 0 <= i < |record.devices| && Verifies(verify, record.devices[i].publicKey, message, proof)
      ensures Signed(verify, record, ref, key, name, proof, record.devices[i].publicKey)
    {
    }
  }

  /** The first device with the id is gone, the others are there in their order, and the epoch has moved by one. */
  ghost predicate FirstRemoved(record: Record, record': Record, deviceId: string) {
    && record'.publicKey == record.publicKey && record'.epoch == record.epoch + 1
    && exists gone: Device, front: seq<Device>, back: seq<Device> :: SplitAt(record.devices, front, gone, back, deviceId) && record'.devices == front + back
  }

  ghost predicate SplitAt(devices: seq<Device>, front: seq<Device>, gone: Device, back: seq<Device>, deviceId: string) {
    devices == front + [gone] + back && gone.deviceId == deviceId && forall d :: d in front ==> d.deviceId != deviceId
  }

  lemma FirstIsRemoved(record: Record, deviceId: string)
    requires exists d :: d in record.devices && d.deviceId == deviceId
    ensures var k := IndexOf(record.devices, deviceId);
            k < |record.devices| && FirstRemoved(record, WithoutDevice(record, k), deviceId)
  {
    var devices := record.devices;
    var k := IndexOf(devices, deviceId);
    var d :| d in devices && d.deviceId == deviceId;
    var i :| 0 <= i < |devices| && devices[i] == d;
    assert devices == devices[..k] + [devices[k]] + devices[k + 1..];
    assert SplitAt(devices, devices[..k], devices[k], devices[k + 1..], deviceId);
  }

  /** A revocation is accepted exactly when the identity has a device with the id. */
  lemma RevokeAcceptedIff(verify: Verifier, s: State, ref: string, deviceId: string)
    ensures var s' := Apply(verify, s, Revoke(ref, deviceId));
            s'.accepted == s.accepted &&
            if ref != "" && deviceId != "" && ref in s.records && exists d :: d in s.records[ref].devices && d.deviceId == deviceId then
              && ref in s'.records && s'.records == s.records[ref := s'.records[ref]]
              && FirstRemoved(s.records[ref], s'.records[ref], deviceId)
            else s'.records == s.records
  {
    if ref in s.records {
      if exists d :: d in s.records[ref].devices && d.deviceId == deviceId {
        FirstIsRemoved(s.records[ref], deviceId);
      } else {
        var devices := s.records[ref].devices;
        forall i | 0 <= i < |devices| ensures devices[i].deviceId != deviceId {
          assert devices[i] in devices;
        }
      }
    }
  }

  lemma {:induction false} EpochsGrow(verify: Verifier, s: State, calls: seq<Call>, ref: string)
    requires PossibleRun(verify, s, calls) && ref in s.records
    ensures var s' := Run(verify, s, calls); ref in s'.records && s'.records[ref].epoch >= s.records[ref].epoch
    decreases |calls|
  {
    if calls != [] {
      EpochsGrow(verify, Apply(verify, s, calls[0]), calls[1..], ref);
    }
  }

  /** Binding or revoking any device makes every proof that was signed before useless, for good, whoever signed it and for whatever key. */
  lemma OldProofsFail(verify: Verifier, s: State, calls: seq<Call>, ref: string, proof: Octets,
                      signer: Octets, signedKey: Octets, signedName: string, signedEpoch: nat, key: Octets, name: string)
    requires FitsOneMessage(verify) && PossibleRun(verify, s, calls) && ref in s.records && NulFree(ref)
    requires |signer| == 32 && verify(signer, BindingMessage(ref, signedKey, signedName, signedEpoch), proof)
    requires signedEpoch < s.records[ref].epoch
    ensures BindRefusal(verify, Run(verify, s, calls).records, ref, key, name, proof).Some?
  {
    EpochsGrow(verify, s, calls, ref);
    var record := Run(verify, s, calls).records[ref];
    SignedIffAuthorized(verify, record, ref, key, name, proof);
    if Authorizes(verify, ref, record, key, name, proof) {
      var now := Authority(verify, ref, record, key, name, proof).value;
      assert Verifies(verify, now, BindingMessage(ref, key, name, record.epoch), proof);
      assert Verifies(verify, signer, BindingMessage(ref, signedKey, signedName, signedEpoch), proof);
      MessageIsInjective(ref, signedKey, signedName, signedEpoch, ref, key, name, record.epoch);
      assert false;
    }
  }

  // ----- Where keys come from -----

  /** The run up to call `k`. */
  function Before(verify: Verifier, calls: seq<Call>, k: nat): State
    requires k <= |calls|
  {
    Run(verify, Empty, calls[..k])
  }

  /** Call `c` was accepted. */
  predicate TookEffect(verify: Verifier, calls: seq<Call>, c: nat)
    requires c < |calls|
  {
    Before(verify, calls, c + 1) != Before(verify, calls, c)
  }

  /** Call `c` brought the device to the identity. */
  predicate Brought(verify: Verifier, calls: seq<Call>, c: nat, ref: string, d: Device)
    requires c < |calls|
  {
    || (calls[c].Create? && calls[c].ref == ref && calls[c].first == d)
    || (calls[c].Bind? && calls[c].ref == ref && d == Device(calls[c].deviceId, calls[c].name, calls[c].key) && TookEffect(verify, calls, c))
  }

  /** The device came in by call `c` and has not been revoked between that call and call `k`. */
  ghost predicate StillBound(verify: Verifier, calls: seq<Call>, c: nat, k: nat, ref: string, d: Device) {
    && c < k <= |calls| && Brought(verify, calls, c, ref, d)
    && forall r :: c < r < k ==> calls[r] != Revoke(ref, d.deviceId)
  }

  /** Some call brought the device, and no call since then revoked it. */
  ghost predicate BoundNow(verify: Verifier, calls: seq<Call>, k: nat, ref: string, d: Device) {
    exists c: nat :: StillBound(verify, calls, c, k, ref, d)
  }

  lemma {:induction false} RunAppend(verify: Verifier, s: State, calls: seq<Call>, call: Call)
    ensures Run(verify, s, calls + [call]) == Apply(verify, Run(verify, s, calls), call)
    ensures PossibleRun(verify, s, calls + [call]) ==> PossibleRun(verify, s, calls) && Possible(Run(verify, s, calls), call)
    decreases |calls|
  {
    if calls == [] {
      assert [call][1..] == [];
    } else {
      assert (calls + [call])[1..] == calls[1..] + [call];
      RunAppend(verify, Apply(verify, s, calls[0]), calls[1..], call);
    }
  }

  lemma OneMore(verify: Verifier, calls: seq<Call>, k: nat)
    requires k < |calls|
    ensures Before(verify, calls, k + 1) == Apply(verify, Before(verify, calls, k), calls[k])
    ensures PossibleRun(verify, Empty, calls[..k + 1]) ==> PossibleRun(verify, Empty, calls[..k]) && Possible(Before(verify, calls, k), calls[k])
  {
    assert calls[..k + 1] == calls[..k] + [calls[k]];
    RunAppend(verify, Empty, calls[..k], calls[k]);
  }

  /** No two devices of an identity have the same id. */
  ghost predicate IdsDiffer(record: Record) {
    forall i, j :: 0 <= i < j < |record.devices| ==> record.devices[i].deviceId != record.devices[j].deviceId
  }

  predicate CreatedWith(calls: seq<Call>, c: nat, ref: string, publicKey: Octets) {
    c < |calls| && calls[c].Create? && calls[c].ref == ref && calls[c].publicKey == publicKey
  }

  /** The record is accounted for by the first `k` calls: root key from the creation, each device still bound. */
  ghost predicate Sourced(verify: Verifier, calls: seq<Call>, k: nat, ref: string, record: Record)
    requires k <= |calls|
  {
    && ref != "" && IdsDiffer(record)
    && (exists c: nat :: c < k && CreatedWith(calls, c, ref, record.publicKey))
    && (forall d :: d in record.devices ==> d.deviceId != "" && BoundNow(verify, calls, k, ref, d))
  }

  lemma DevicesGoOn(verify: Verifier, calls: seq<Call>, k: nat, ref: string, record: Record, d: Device)
    requires k < |calls| && Sourced(verify, calls, k, ref, record) && d in record.devices && calls[k] != Revoke(ref, d.deviceId)
    ensures d.deviceId != "" && BoundNow(verify, calls, k + 1, ref, d)
  {
    var c: nat :| StillBound(verify, calls, c, k, ref, d);
    assert StillBound(verify, calls, c, k + 1, ref, d);
  }

  lemma NewDevice(verify: Verifier, calls: seq<Call>, k: nat, ref: string, d: Device)
    requires k < |calls| && Brought(verify, calls, k, ref, d)
    ensures BoundNow(verify, calls, k + 1, ref, d)
  {
    assert StillBound(verify, calls, k, k + 1, ref, d);
  }

  /** A record no call has touched, or that the call leaves with some of its devices. */
  lemma FewerDevices(verify: Verifier, calls: seq<Call>, k: nat, ref: string, record: Record, record': Record)
    requires k < |calls| && Sourced(verify, calls, k, ref, record) && IdsDiffer(record') && record'.publicKey == record.publicKey
    requires forall d :: d in record'.devices ==> d in record.devices && calls[k] != Revoke(ref, d.deviceId)
    ensures Sourced(verify, calls, k + 1, ref, record')
  {
    forall d | d in record'.devices ensures d.deviceId != "" && BoundNow(verify, calls, k + 1, ref, d) {
      DevicesGoOn(verify, calls, k, ref, record, d);
    }
  }

  lemma OneMoreDevice(verify: Verifier, calls: seq<Call>, k: nat, ref: string, record: Record, d: Device)
    requires k < |calls| && Sourced(verify, calls, k, ref, record) && IdsDiffer(WithDevice(record, d)) && d.deviceId != ""
    requires calls[k].Bind? && Brought(verify, calls, k, ref, d)
    ensures Sourced(verify, calls, k + 1, ref, WithDevice(record, d))
  {
    forall e | e in WithDevice(record, d).devices
      ensures e.deviceId != "" && BoundNow(verify, calls, k + 1, ref, e)
    {
      if e in record.devices {
        DevicesGoOn(verify, calls, k, ref, record, e);
      } else {
        NewDevice(verify, calls, k, ref, e);
      }
    }
  }

  lemma RevokedIsOut(record: Record, deviceId: string)
    requires IdsDiffer(record) && IndexOf(record.devices, deviceId) < |record.devices|
    ensures var record' := WithoutDevice(record, IndexOf(record.devices, deviceId));
            IdsDiffer(record') && forall d :: d in record'.devices ==> d in record.devices && d.deviceId != deviceId
  {
    var k := IndexOf(record.devices, deviceId);
    var record' := WithoutDevice(record, k);
    forall i | 0 <= i < |record'.devices|
      ensures record'.devices[i] in record.devices && record'.devices[i].deviceId != deviceId
    {
      assert record'.devices[i] == record.devices[if i < k then i else i + 1];
    }
  }

  /** An identity that does not have the device is not affected by revoking it. */
  lemma NotRevoked(record: Record, deviceId: string)
    requires IndexOf(record.devices, deviceId) == |record.devices|
    ensures forall d :: d in record.devices ==> d.deviceId != deviceId
  {
  }

  ghost predicate AllSourced(verify: Verifier, calls: seq<Call>, k: nat, s: State)
    requires k <= |calls|
  {
    forall ref :: ref in s.records ==> Sourced(verify, calls, k, ref, s.records[ref])
  }

  lemma RevokeSourced(verify: Verifier, calls: seq<Call>, k: nat, s: State, ref: string)
    requires k < |calls| && calls[k].Revoke? && AllSourced(verify, calls, k, s) && ref in Apply(verify, s, calls[k]).records
    ensures Sourced(verify, calls, k + 1, ref, Apply(verify, s, calls[k]).records[ref])
  {
    var record := s.records[ref];
    assert Sourced(verify, calls, k, ref, record);
    if calls[k].ref == ref && calls[k].deviceId != "" {
      if IndexOf(record.devices, calls[k].deviceId) < |record.devices| {
        RevokedIsOut(record, calls[k].deviceId);
      } else {
        NotRevoked(record, calls[k].deviceId);
      }
    }
    FewerDevices(verify, calls, k, ref, record, Apply(verify, s, calls[k]).records[ref]);
  }

  lemma BindSourced(verify: Verifier, calls: seq<Call>, k: nat, s: State, ref: string)
    requires k < |calls| && calls[k].Bind? && AllSourced(verify, calls, k, s) && Possible(s, calls[k])
    requires s == Before(verify, calls, k) && Before(verify, calls, k + 1) == Apply(verify, s, calls[k])
    requires ref in Apply(verify, s, calls[k]).records
    ensures Sourced(verify, calls, k + 1, ref, Apply(verify, s, calls[k]).records[ref])
  {
    var record := s.records[ref];
    var s' := Apply(verify, s, calls[k]);
    assert Sourced(verify, calls, k, ref, record);
    if s'.records[ref] == record {
      FewerDevices(verify, calls, k, ref, record, record);
    } else {
      var d := Device(calls[k].deviceId, calls[k].name, calls[k].key);
      assert s'.records[ref] == WithDevice(record, d);
      OneMoreDevice(verify, calls, k, ref, record, d);
    }
  }

  lemma CreateSourced(verify: Verifier, calls: seq<Call>, k: nat, s: State, ref: string)
    requires k < |calls| && calls[k].Create? && AllSourced(verify, calls, k, s) && Possible(s, calls[k])
    requires ref in Apply(verify, s, calls[k]).records
    ensures Sourced(verify, calls, k + 1, ref, Apply(verify, s, calls[k]).records[ref])
  {
    if ref == calls[k].ref {
      var record := Record(calls[k].publicKey, [calls[k].first], 0);
      assert CreatedWith(calls, k, ref, record.publicKey);
      NewDevice(verify, calls, k, ref, calls[k].first);
    } else {
      assert Sourced(verify, calls, k, ref, s.records[ref]);
      FewerDevices(verify, calls, k, ref, s.records[ref], s.records[ref]);
    }
  }

  lemma {:induction false} RunSourced(verify: Verifier, calls: seq<Call>, k: nat)
    requires k <= |calls| && PossibleRun(verify, Empty, calls[..k])
    ensures AllSourced(verify, calls, k, Before(verify, calls, k))
  {
    if k == 0 {
      assert calls[..0] == [];
    } else {
      OneMore(verify, calls, k - 1);
      RunSourced(verify, calls, k - 1);
      var s := Before(verify, calls, k - 1);
      var s' := Apply(verify, s, calls[k - 1]);
      forall ref | ref in s'.records ensures Sourced(verify, calls, k, ref, s'.records[ref]) {
        match calls[k - 1]
        case Create(_, _, _) => CreateSourced(verify, calls, k - 1, s, ref);
        case Bind(_, _, _, _, _) => BindSourced(verify, calls, k - 1, s, ref);
        case Revoke(_, _) => RevokeSourced(verify, calls, k - 1, s, ref);
      }
    }
  }

  /** Where the key comes from: the creation of the identity, or a device brought to it and not revoked since. */
  ghost predicate KeyHasSource(verify: Verifier, calls: seq<Call>, k: nat, ref: string, key: Octets)
    requires k <= |calls|
  {
    || (exists c: nat :: c < k && CreatedWith(calls, c, ref, key))
    || (exists d: Device :: d.publicKey == key && BoundNow(verify, calls, k, ref, d))
  }

  /**
   Over every run: a bind that takes effect was signed at the current epoch by the
   root key given at the identity's creation, or by the key of a device that came in
   by the creation or an earlier accepted bind and has not been revoked since.
   */
  lemma BindsAreAuthorized(verify: Verifier, calls: seq<Call>, k: nat)
    requires k < |calls| && PossibleRun(verify, Empty, calls) && calls[k].Bind? && TookEffect(verify, calls, k)
    ensures var s, c := Before(verify, calls, k), calls[k];
            c.ref in s.records &&
            exists signer :: Signed(verify, s.records[c.ref], c.ref, c.key, c.name, c.proof, signer) && KeyHasSource(verify, calls, k, c.ref, signer)
  {
    PrefixPossible(verify, calls, k);
    OneMore(verify, calls, k);
    RunSourced(verify, calls, k);
    var s, c := Before(verify, calls, k), calls[k];
    BindAcceptedIffSigned(verify, s, c.ref, c.key, c.name, c.proof, c.deviceId);
    var signer :| Signed(verify, s.records[c.ref], c.ref, c.key, c.name, c.proof, signer);
    SignerHasSource(verify, calls, k, c.ref, s.records[c.ref], signer);
  }

  lemma SignerHasSource(verify: Verifier, calls: seq<Call>, k: nat, ref: string, record: Record, signer: Octets)
    requires k <= |calls| && Sourced(verify, calls, k, ref, record) && MaySign(record, signer)
    ensures KeyHasSource(verify, calls, k, ref, signer)
  {
    if signer != record.publicKey {
      var i :| 0 <= i < |record.devices| && record.devices[i].publicKey == signer;
      assert record.devices[i] in record.devices;
      assert BoundNow(verify, calls, k, ref, record.devices[i]);
    }
  }

  lemma {:induction false} PrefixPossible(verify: Verifier, calls: seq<Call>, k: nat)
    requires k <= |calls| && PossibleRun(verify, Empty, calls)
    ensures PossibleRun(verify, Empty, calls[..k])
    decreases |calls| - k
  {
    if k < |calls| {
      PrefixPossible(verify, calls, k + 1);
      OneMore(verify, calls, k);
    } else {
      assert calls[..k] == calls;
    }
  }
}
