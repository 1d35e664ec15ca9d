/**
 Messages over a ratchet session: the handshake gives each side a sending and a
 receiving chain, encryptMessage advances the one and decryptMessage the other,
 and each message key is used for one message.  The primitives are parameters.
 */
module RatchetMessages {
  import opened Bytes
  import opened Wrappers
  import L = AsyncLock
  import opened GuardedStore
  import E = MessageEnvelope
  import R = RatchetAndPrekeys

  datatype Crypto = Crypto(hkdf: (ByteString, string) -> ByteString,
                           publicKey: ByteString -> ByteString, dh: (ByteString, ByteString) -> ByteString,
                           seal: (ByteString, ByteString, ByteString) -> ByteString,
                           open: (ByteString, ByteString, ByteString) -> Option<ByteString>)

  const X3DH_CONTEXT_4TERM_WITH_OTP := "x3dh-4term-with-otp"
  const X3DH_CONTEXT_3TERM_SIGNED_PREKEY_ONLY := "x3dh-3term-signed-prekey-only"
  const MESSAGE_KEY_INFO := "ascend-crypto-v1:ratchet-message-key"
  const CHAIN_ADVANCE_INFO := "ascend-crypto-v1:ratchet-chain-advance"
  const CHAIN_INFO_INITIATOR_TO_RESPONDER := "ascend-crypto-v1:ratchet-chain-initiator-to-responder"
  const CHAIN_INFO_RESPONDER_TO_INITIATOR := "ascend-crypto-v1:ratchet-chain-responder-to-initiator"
  const X3DH_DH_KEY_INFO := "ascend-x3dh-dh-key"

  /** What sending and receiving use of the session's state. */
  datatype RatchetState = RatchetState(sendingChainKey: ByteString, receivingChainKey: ByteString, sendMessageNumber: nat)

  // ----- The handshake -----

  function DhScalar(c: Crypto, seed: ByteString): ByteString {
    (c.hkdf)(seed, X3DH_DH_KEY_INFO)
  }

  function SharedSecret(c: Crypto, dh1: ByteString, dh2: ByteString, dh3: ByteString, dh4: Option<ByteString>): ByteString {
    match dh4
    case Some(dh) => (c.hkdf)(dh1 + dh2 + dh3 + dh, X3DH_CONTEXT_4TERM_WITH_OTP)
    case None => (c.hkdf)(dh1 + dh2 + dh3, X3DH_CONTEXT_3TERM_SIGNED_PREKEY_ONLY)
  }

  function InitiatorState(c: Crypto, secret: ByteString): RatchetState {
    RatchetState((c.hkdf)(secret, CHAIN_INFO_INITIATOR_TO_RESPONDER), (c.hkdf)(secret, CHAIN_INFO_RESPONDER_TO_INITIATOR), 0)
  }

  function ResponderState(c: Crypto, secret: ByteString): RatchetState {
    RatchetState((c.hkdf)(secret, CHAIN_INFO_RESPONDER_TO_INITIATOR), (c.hkdf)(secret, CHAIN_INFO_INITIATOR_TO_RESPONDER), 0)
  }

  /** `ephemeral` is the fresh private key; the other side's keys are public. */
  function InitiatorHandshake(c: Crypto, mySeed: ByteString, ephemeral: ByteString, theirIdentity: ByteString,
                              theirSignedPrekey: ByteString, theirOneTimePrekey: Option<ByteString>): RatchetState {
    var identity := DhScalar(c, mySeed);
    InitiatorState(c, SharedSecret(c, (c.dh)(identity, theirSignedPrekey), (c.dh)(ephemeral, theirIdentity), (c.dh)(ephemeral, theirSignedPrekey),
                                   if theirOneTimePrekey.Some? then Some((c.dh)(ephemeral, theirOneTimePrekey.value)) else None))
  }

  /** The prekeys are the private halves; the other side's keys are public. */
  function ResponderHandshake(c: Crypto, mySeed: ByteString, theirIdentity: ByteString, theirEphemeral: ByteString,
                              mySignedPrekey: ByteString, myOneTimePrekey: Option<ByteString>): RatchetState {
    var identity := DhScalar(c, mySeed);
    ResponderState(c, SharedSecret(c, (c.dh)(mySignedPrekey, theirIdentity), (c.dh)(identity, theirEphemeral), (c.dh)(mySignedPrekey, theirEphemeral),
                                   if myOneTimePrekey.Some? then Some((c.dh)(myOneTimePrekey.value, theirEphemeral)) else None))
  }

  ghost predicate Commutes(c: Crypto) {
    forall a: ByteString, b: ByteString :: (c.dh)(a, (c.publicKey)(b)) == (c.dh)(b, (c.publicKey)(a))
  }

  predicate Paired(a: RatchetState, b: RatchetState) {
    a.sendingChainKey == b.receivingChainKey && b.sendingChainKey == a.receivingChainKey
  }

  /** The two halves of the handshake give paired sessions, with or without a one-time prekey. */
  lemma HandshakePairs(c: Crypto, initiatorSeed: ByteString, responderSeed: ByteString, ephemeral: ByteString,
                       signedPrekey: ByteString, oneTimePrekey: Option<ByteString>)
    requires Commutes(c)
    ensures var pub := c.publicKey;
            var initiator := InitiatorHandshake(c, initiatorSeed, ephemeral, pub((c.hkdf)(responderSeed, "ascend-x3dh-dh-key")),
                                                pub(signedPrekey), if oneTimePrekey.Some? then Some(pub(oneTimePrekey.value)) else None);
            var responder := ResponderHandshake(c, responderSeed, pub((c.hkdf)(initiatorSeed, "ascend-x3dh-dh-key")), pub(ephemeral),
                                                signedPrekey, oneTimePrekey);
            Paired(initiator, responder) && initiator.sendMessageNumber == 0 && responder.sendMessageNumber == 0
  {
  }

  /** Different inputs to hkdf give different outputs. */
  ghost predicate CollisionFree(c: Crypto) {
    forall a: ByteString, x: string, b: ByteString, y: string :: (c.hkdf)(a, x) == (c.hkdf)(b, y) ==> a == b && x == y
  }

  /** A secret made without a one-time prekey is never one made with it, and the two directions of a session are different chains. */
  lemma SecretsAndChainsDiffer(c: Crypto, dh1: ByteString, dh2: ByteString, dh3: ByteString,
                               dh1': ByteString, dh2': ByteString, dh3': ByteString, dh4': ByteString, secret: ByteString)
    requires CollisionFree(c)
    ensures SharedSecret(c, dh1, dh2, dh3, None) != SharedSecret(c, dh1', dh2', dh3', Some(dh4'))
    ensures InitiatorState(c, secret).sendingChainKey != ResponderState(c, secret).sendingChainKey
  {
    assert "x3dh-4term-with-otp"[5] == '4' && "x3dh-3term-signed-prekey-only"[5] == '3';
    assert "ascend-crypto-v1:ratchet-chain-initiator-to-responder"[31] == 'i' && "ascend-crypto-v1:ratchet-chain-responder-to-initiator"[31] == 'r';
  }

  // ----- One message -----

  datatype Call = Encrypt(plaintext: ByteString, nonce: ByteString) | Decrypt(envelope: ByteString)

  function NextMessageKey(c: Crypto, state: RatchetState): (ByteString, RatchetState) {
    ((c.hkdf)(state.sendingChainKey, MESSAGE_KEY_INFO),
     state.(sendingChainKey := (c.hkdf)(state.sendingChainKey, CHAIN_ADVANCE_INFO), sendMessageNumber := state.sendMessageNumber + 1))
  }

  function NextReceivingMessageKey(c: Crypto, state: RatchetState): (ByteString, RatchetState) {
    ((c.hkdf)(state.receivingChainKey, MESSAGE_KEY_INFO),
     state.(receivingChainKey := (c.hkdf)(state.receivingChainKey, CHAIN_ADVANCE_INFO)))
  }

  /** The bodies of encryptMessage and decryptMessage, under the session's mutex. */
  function Advance(c: Crypto, q: Call, state: RatchetState): Option<(Option<RatchetState>, ByteString)> {
    match q
    case Encrypt(plaintext, nonce) =>
      var (key, next) := NextMessageKey(c, state);
      (match E.Encode(E.Message(nonce, state.sendMessageNumber, (c.seal)(key, nonce, plaintext)))
       case Err(_) => None
       case Ok(envelope) => Some((Some(next), envelope)))
    case Decrypt(envelope) =>
      match E.Decode(envelope)
      case Err(_) => None
      case Ok(m) =>
        var (key, next) := NextReceivingMessageKey(c, state);
        match (c.open)(key, m.nonce, m.ciphertext)
        case None => None
        case Some(plaintext) => Some((Some(next), plaintext))
  }

  function Body(c: Crypto): Effect<Call, RatchetState, ByteString> {
    (q: Call, state: RatchetState) => Advance(c, q, state)
  }

  /** Encrypting succeeds with any nonce of 24 bytes until the message number outgrows its four bytes. */
  lemma EncryptSucceedsIff(c: Crypto, state: RatchetState, plaintext: ByteString, nonce: ByteString)
    ensures Advance(c, Encrypt(plaintext, nonce), state).Some? <==> |nonce| == 24 && state.sendMessageNumber < 0x1_0000_0000
  {
  }

  // ----- The messages of a session -----

  /** The `i`-th key of the chain that starts at `chain`. */
  function ChainAt(c: Crypto, chain: ByteString, i: nat): ByteString {
    if i == 0 then chain else (c.hkdf)(ChainAt(c, chain, i - 1), "ascend-crypto-v1:ratchet-chain-advance")
  }

  function KeyAt(c: Crypto, chain: ByteString, i: nat): ByteString {
    (c.hkdf)(ChainAt(c, chain, i), "ascend-crypto-v1:ratchet-message-key")
  }

  /** What the last call of the log answered, if it was one of this session and did not throw. */
  function LastAnswer(c: Crypto, start: RatchetState, log: seq<Entry<Call>>, key: string): Option<ByteString>
    requires log != []
  {
    var last := log[|log| - 1];
    var found := Replayed(Body(c), Some(start), log[..|log| - 1], key);
    if last.key != key || found.None? then None
    else match Advance(c, last.q, found.value)
         case None => None
         case Some((_, answer)) => Some(answer)
  }

  datatype Exchange = Exchange(plaintext: ByteString, envelope: ByteString)

  /** The messages that the session has encrypted, in the order of the log. */
  function Sent(c: Crypto, start: RatchetState, log: seq<Entry<Call>>, key: string): seq<Exchange> {
    if log == [] then []
    else
      var before := Sent(c, start, log[..|log| - 1], key);
      var last := log[|log| - 1].q;
      match LastAnswer(c, start, log, key)
      case Some(answer) => if last.Encrypt? then before + [Exchange(last.plaintext, answer)] else before
      case None => before
  }

  /** The messages that the session has decrypted. */
  function Received(c: Crypto, start: RatchetState, log: seq<Entry<Call>>, key: string): seq<Exchange> {
    if log == [] then []
    else
      var before := Received(c, start, log[..|log| - 1], key);
      var last := log[|log| - 1].q;
      match LastAnswer(c, start, log, key)
      case Some(answer) => if last.Decrypt? then before + [Exchange(answer, last.envelope)] else before
      case None => before
  }

  /** The envelope of the `i`-th message: it carries its number, and a ciphertext under the chain's `i`-th key. */
  ghost predicate SealedAt(c: Crypto, chain: ByteString, number: nat, i: nat, x: Exchange) {
    exists nonce: ByteString :: E.Encode(E.Message(nonce, number + i, (c.seal)(KeyAt(c, chain, i), nonce, x.plaintext))) == Ok(x.envelope)
  }

  predicate OpenedAt(c: Crypto, chain: ByteString, i: nat, x: Exchange) {
    var m := E.Decode(x.envelope);
    m.Ok? && (c.open)(KeyAt(c, chain, i), m.value.nonce, m.value.ciphertext) == Some(x.plaintext)
  }

  /** The session counts its messages of either direction. */
  predicate Counts(c: Crypto, start: RatchetState, log: seq<Entry<Call>>, key: string) {
    var sent := |Sent(c, start, log, key)|;
    Replayed(Body(c), Some(start), log, key) ==
    Some(RatchetState(ChainAt(c, start.sendingChainKey, sent), ChainAt(c, start.receivingChainKey, |Received(c, start, log, key)|),
                      start.sendMessageNumber + sent))
  }

  /** Every message of a session is numbered and sealed, or opened, by its place in its direction. */
  ghost predicate AllSealed(c: Crypto, start: RatchetState, sent: seq<Exchange>) {
    forall i: nat :: i < |sent| ==> SealedAt(c, start.sendingChainKey, start.sendMessageNumber, i, sent[i])
  }

  ghost predicate AllOpened(c: Crypto, start: RatchetState, received: seq<Exchange>) {
    forall i: nat :: i < |received| ==> OpenedAt(c, start.receivingChainKey, i, received[i])
  }

  lemma LastReplayed(c: Crypto, start: RatchetState, log: seq<Entry<Call>>, key: string)
    requires log != []
    ensures var found := Replayed(Body(c), Some(start), log[..|log| - 1], key);
            var last := log[|log| - 1];
            Replayed(Body(c), Some(start), log, key) ==
            if last.key != key || found.None? || Advance(c, last.q, found.value).None? then found else Advance(c, last.q, found.value).value.0
  {
  }

  lemma SealsNext(c: Crypto, start: RatchetState, n: nat, state: RatchetState, plaintext: ByteString, nonce: ByteString)
    requires state.sendingChainKey == ChainAt(c, start.sendingChainKey, n) && state.sendMessageNumber == start.sendMessageNumber + n
    requires Advance(c, Encrypt(plaintext, nonce), state).Some?
    ensures SealedAt(c, start.sendingChainKey, start.sendMessageNumber, n,
                     Exchange(plaintext, Advance(c, Encrypt(plaintext, nonce), state).value.1))
  {
    var x := Exchange(plaintext, Advance(c, Encrypt(plaintext, nonce), state).value.1);
    assert KeyAt(c, start.sendingChainKey, n) == NextMessageKey(c, state).0;
    assert E.Encode(E.Message(nonce, start.sendMessageNumber + n, (c.seal)(KeyAt(c, start.sendingChainKey, n), nonce, x.plaintext))) == Ok(x.envelope);
  }

  lemma OpensNext(c: Crypto, start: RatchetState, n: nat, state: RatchetState, envelope: ByteString)
    requires state.receivingChainKey == ChainAt(c, start.receivingChainKey, n)
    requires Advance(c, Decrypt(envelope), state).Some?
    ensures OpenedAt(c, start.receivingChainKey, n, Exchange(Advance(c, Decrypt(envelope), state).value.1, envelope))
  {
    assert KeyAt(c, start.receivingChainKey, n) == NextReceivingMessageKey(c, state).0;
  }

  lemma {:induction false} CountIsKept(c: Crypto, start: RatchetState, log: seq<Entry<Call>>, key: string)
    ensures Counts(c, start, log, key)
    decreases |log|
  {
    if log != [] {
      CountIsKept(c, start, log[..|log| - 1], key);
      LastReplayed(c, start, log, key);
    }
  }

  lemma {:induction false} SentIsSealed(c: Crypto, start: RatchetState, log: seq<Entry<Call>>, key: string)
    ensures AllSealed(c, start, Sent(c, start, log, key))
    decreases |log|
  {
    if log != [] {
      var before := log[..|log| - 1];
      SentIsSealed(c, start, before, key);
      CountIsKept(c, start, before, key);
      var q := log[|log| - 1].q;
      if LastAnswer(c, start, log, key).Some? && q.Encrypt? {
        SealsNext(c, start, |Sent(c, start, before, key)|, Replayed(Body(c), Some(start), before, key).value, q.plaintext, q.nonce);
      }
    }
  }

  lemma {:induction false} ReceivedIsOpened(c: Crypto, start: RatchetState, log: seq<Entry<Call>>, key: string)
    ensures AllOpened(c, start, Received(c, start, log, key))
    decreases |log|
  {
    if log != [] {
      var before := log[..|log| - 1];
      ReceivedIsOpened(c, start, before, key);
      CountIsKept(c, start, before, key);
      var q := log[|log| - 1].q;
      if LastAnswer(c, start, log, key).Some? && q.Decrypt? {
        OpensNext(c, start, |Received(c, start, before, key)|, Replayed(Body(c), Some(start), before, key).value, q.envelope);
      }
    }
  }

  // ----- Both ends of a channel -----

  /** Opening undoes sealing under the same key and fails under any other. */
  ghost predicate Ideal(c: Crypto) {
    forall k: ByteString, k': ByteString, nonce: ByteString, plaintext: ByteString ::
      (c.open)(k', nonce, (c.seal)(k, nonce, plaintext)) == if k' == k then Some(plaintext) else None
  }

  ghost predicate DistinctKeys(c: Crypto, chain: ByteString) {
    forall i: nat, j: nat :: KeyAt(c, chain, i) == KeyAt(c, chain, j) ==> i == j
  }

  lemma SealedIsOpened(c: Crypto, chain: ByteString, j: nat, x: Exchange, i: nat)
    requires Ideal(c) && DistinctKeys(c, chain) && SealedAt(c, chain, 0, j, x)
    ensures E.Decode(x.envelope).Ok? && E.Decode(x.envelope).value.sequenceNumber == j
    ensures var m := E.Decode(x.envelope).value;
            (c.open)(KeyAt(c, chain, i), m.nonce, m.ciphertext) == if i == j then Some(x.plaintext) else None
  {
    var nonce: ByteString :| E.Encode(E.Message(nonce, 0 + j, (c.seal)(KeyAt(c, chain, j), nonce, x.plaintext))) == Ok(x.envelope);
    E.DecodeUndoesEncode(E.Message(nonce, 0 + j, (c.seal)(KeyAt(c, chain, j), nonce, x.plaintext)));
  }

  /** A session's log, from the state in which the handshake left it. */
  datatype Side = Side(start: RatchetState, log: seq<Entry<Call>>, key: string)

  function SentBy(c: Crypto, e: Side): seq<Exchange> {
    Sent(c, e.start, e.log, e.key)
  }

  function ReceivedBy(c: Crypto, e: Side): seq<Exchange> {
    Received(c, e.start, e.log, e.key)
  }

  function StateOf(c: Crypto, e: Side): Option<RatchetState> {
    Replayed(Body(c), Some(e.start), e.log, e.key)
  }

  ghost predicate Channel(c: Crypto, sender: Side, receiver: Side) {
    && Ideal(c) && DistinctKeys(c, sender.start.sendingChainKey)
    && sender.start.sendingChainKey == receiver.start.receivingChainKey && sender.start.sendMessageNumber == 0
  }

  lemma SentAt(c: Crypto, e: Side, i: nat)
    requires i < |SentBy(c, e)|
    ensures SealedAt(c, e.start.sendingChainKey, e.start.sendMessageNumber, i, SentBy(c, e)[i])
  {
    SentIsSealed(c, e.start, e.log, e.key);
  }

  lemma ReceivedAt(c: Crypto, e: Side, i: nat)
    requires i < |ReceivedBy(c, e)|
    ensures OpenedAt(c, e.start.receivingChainKey, i, ReceivedBy(c, e)[i])
  {
    ReceivedIsOpened(c, e.start, e.log, e.key);
  }

  lemma OpenedWhereSealed(c: Crypto, chain: ByteString, i: nat, x: Exchange, j: nat, y: Exchange)
    requires Ideal(c) && DistinctKeys(c, chain) && OpenedAt(c, chain, i, x) && SealedAt(c, chain, 0, j, y) && x.envelope == y.envelope
    ensures i == j && x == y
  {
    SealedIsOpened(c, chain, j, y, i);
  }

  lemma ReadInPlace(c: Crypto, sender: Side, receiver: Side, i: nat, j: nat)
    requires Channel(c, sender, receiver) && i < |ReceivedBy(c, receiver)| && j < |SentBy(c, sender)|
    requires SentBy(c, sender)[j].envelope == ReceivedBy(c, receiver)[i].envelope
    ensures i == j && ReceivedBy(c, receiver)[i] == SentBy(c, sender)[j]
  {
    SentAt(c, sender, j);
    ReceivedAt(c, receiver, i);
    OpenedWhereSealed(c, sender.start.sendingChainKey, i, ReceivedBy(c, receiver)[i], j, SentBy(c, sender)[j]);
  }

  ghost predicate CameFrom(c: Crypto, sender: Side, envelope: ByteString) {
    exists y :: y in SentBy(c, sender) && y.envelope == envelope
  }

  ghost predicate AllCameFrom(c: Crypto, sender: Side, receiver: Side) {
    forall x :: x in ReceivedBy(c, receiver) ==> CameFrom(c, sender, x.envelope)
  }

  predicate InPlace<T(==)>(s: seq<T>, t: seq<T>, i: nat)
    requires i < |s|
  {
    i < |t| && s[i] == t[i]
  }

  lemma APrefix<T>(s: seq<T>, t: seq<T>)
    requires forall i: nat :: i < |s| ==> InPlace(s, t, i)
    ensures s <= t
  {
    assert s != [] ==> InPlace(s, t, |s| - 1);
    forall i: nat | i < |s| ensures s[i] == t[..|s|][i] {
      assert InPlace(s, t, i);
    }
    assert s == t[..|s|];
  }

  lemma FindInPlace(c: Crypto, sender: Side, receiver: Side, i: nat)
    requires Channel(c, sender, receiver) && i < |ReceivedBy(c, receiver)|
    requires CameFrom(c, sender, ReceivedBy(c, receiver)[i].envelope)
    ensures InPlace(ReceivedBy(c, receiver), SentBy(c, sender), i)
  {
    var sent := SentBy(c, sender);
    var y :| y in sent && y.envelope == ReceivedBy(c, receiver)[i].envelope;
    var j: nat :| j < |sent| && sent[j] == y;
    ReadInPlace(c, sender, receiver, i, j);
  }

  /**
   Whatever the relay drops, repeats or reorders, a session that only gets
   envelopes of the other one decrypts them in the order of sending, without
   a gap and without reading any twice, to the plaintexts that were sent.
   */
  lemma ReadsAreAPrefix(c: Crypto, sender: Side, receiver: Side)
    requires Channel(c, sender, receiver)
    requires AllCameFrom(c, sender, receiver)
    ensures ReceivedBy(c, receiver) <= SentBy(c, sender)
  {
    var received := ReceivedBy(c, receiver);
    forall i: nat | i < |received| ensures InPlace(received, SentBy(c, sender), i) {
      assert received[i] in received;
      FindInPlace(c, sender, receiver, i);
    }
    APrefix(received, SentBy(c, sender));
  }

  /** Of the messages sent, decryptMessage reads the next one and refuses every other, which then changes nothing. */
  lemma NextIsReadAndNoOther(c: Crypto, sender: Side, receiver: Side, m: nat)
    requires Channel(c, sender, receiver) && m < |SentBy(c, sender)|
    ensures StateOf(c, receiver).Some?
    ensures var x := SentBy(c, sender)[m];
            var state := StateOf(c, receiver).value;
            var r := Advance(c, Decrypt(x.envelope), state);
            if m == |ReceivedBy(c, receiver)| then
              r.Some? && r.value.1 == x.plaintext && r.value.0.Some?
              && r.value.0.value == state.(receivingChainKey := ChainAt(c, receiver.start.receivingChainKey, m + 1))
            else r.None?
  {
    SentAt(c, sender, m);
    CountIsKept(c, receiver.start, receiver.log, receiver.key);
    SealedIsOpened(c, sender.start.sendingChainKey, m, SentBy(c, sender)[m], |ReceivedBy(c, receiver)|);
  }

  // ----- Runs -----

  /** The session of `key` in a run of its store. */
  function SideOf(s: State<Call, RatchetState, ByteString>, key: string): Side
    requires key in s.issued
  {
    Side(s.issued[key], s.log, key)
  }

  lemma {:induction false} SentGrows(c: Crypto, start: RatchetState, log: seq<Entry<Call>>, key: string, k: nat)
    requires k <= |log|
    ensures Sent(c, start, log[..k], key) <= Sent(c, start, log, key)
    ensures Received(c, start, log[..k], key) <= Received(c, start, log, key)
    decreases |log|
  {
    if k == |log| {
      assert log[..k] == log;
    } else {
      assert log[..|log| - 1][..k] == log[..k];
      SentGrows(c, start, log[..|log| - 1], key, k);
    }
  }

  /** The call with entry `i` of the log is the message of its session with the next number. */
  predicate IsMessage(c: Crypto, e: Side, i: nat, answer: ByteString)
    requires i < |e.log|
  {
    match e.log[i].q
    case Encrypt(plaintext, _) =>
      var n := |Sent(c, e.start, e.log[..i], e.key)|;
      n < |Sent(c, e.start, e.log[..i + 1], e.key)| <= |SentBy(c, e)| && SentBy(c, e)[n] == Exchange(plaintext, answer)
    case Decrypt(envelope) =>
      var n := |Received(c, e.start, e.log[..i], e.key)|;
      n < |Received(c, e.start, e.log[..i + 1], e.key)| <= |ReceivedBy(c, e)| && ReceivedBy(c, e)[n] == Exchange(answer, envelope)
  }

  lemma LandedIsMessage(c: Crypto, e: Side, i: nat, answer: ByteString)
    requires i < |e.log| && e.log[i].key == e.key
    requires var found := Replayed(Body(c), Some(e.start), e.log[..i], e.key);
             found.Some? && Advance(c, e.log[i].q, found.value).Some? && Advance(c, e.log[i].q, found.value).value.1 == answer
    ensures IsMessage(c, e, i, answer)
  {
    var log := e.log[..i + 1];
    assert log[..|log| - 1] == e.log[..i];
    assert LastAnswer(c, e.start, log, e.key) == Some(answer);
    SentGrows(c, e.start, e.log, e.key, i + 1);
  }

  /**
   A call that returned is the message of its session that its turn made it, and
   what is stored is the session after all of its messages.
   */
  lemma AnswersAreMessages(c: Crypto, steps: seq<Step<Call, RatchetState>>, id: nat)
    requires Runnable(Body(c), Empty<Call, RatchetState, ByteString>(), steps)
    requires var s := Run(Body(c), Empty<Call, RatchetState, ByteString>(), steps); id in s.jobs && s.jobs[id].pc.Returned?
    ensures var s := Run(Body(c), Empty<Call, RatchetState, ByteString>(), steps);
            var job := s.jobs[id];
            && job.key in s.issued && L.Lookup(s.stored, job.key) == StateOf(c, SideOf(s, job.key))
            && exists i: nat :: i < |s.log| && s.log[i] == Entry(id, job.key, job.q) && IsMessage(c, SideOf(s, job.key), i, job.pc.answer)
  {
    var s := Run(Body(c), Empty<Call, RatchetState, ByteString>(), steps);
    var job := s.jobs[id];
    R.CallsAreSerial(Body(c), steps, job.key, id);
    var i: nat :| i < |s.log| && s.log[i] == Entry(id, job.key, job.q) && LandedFrom(Body(c), s, i, job.pc.answer);
    R.OnlyIssuedAreFound(Body(c), s.log[..i], job.key);
    LandedIsMessage(c, SideOf(s, job.key), i, job.pc.answer);
  }

  predicate Opens(c: Crypto, k: ByteString, x: Exchange) {
    var m := E.Decode(x.envelope);
    m.Ok? && (c.open)(k, m.value.nonce, m.value.ciphertext).Some?
  }

  lemma OnlyItsKeyOpens(c: Crypto, chain: ByteString, number: nat, i: nat, x: Exchange, k: ByteString)
    requires Ideal(c) && SealedAt(c, chain, number, i, x)
    ensures Opens(c, k, x) <==> k == KeyAt(c, chain, i)
  {
    var nonce: ByteString :| E.Encode(E.Message(nonce, number + i, (c.seal)(KeyAt(c, chain, i), nonce, x.plaintext))) == Ok(x.envelope);
    E.DecodeUndoesEncode(E.Message(nonce, number + i, (c.seal)(KeyAt(c, chain, i), nonce, x.plaintext)));
  }

  /** The keys that follow from the shared secret under the two labels never coincide. */
  ghost predicate UnrelatedKeys(c: Crypto, secret: ByteString) {
    var there := (c.hkdf)(secret, "ascend-crypto-v1:ratchet-chain-initiator-to-responder");
    var back := (c.hkdf)(secret, "ascend-crypto-v1:ratchet-chain-responder-to-initiator");
    && DistinctKeys(c, there) && DistinctKeys(c, back)
    && forall i: nat, j: nat :: KeyAt(c, there, i) != KeyAt(c, back, j)
  }

  /** No key opens two of the messages that the two sides of a session have encrypted. */
  lemma NoMessageKeyTwice(c: Crypto, secret: ByteString, a: Side, b: Side, k: ByteString)
    requires Ideal(c) && UnrelatedKeys(c, secret)
    requires a.start == InitiatorState(c, secret) && b.start == ResponderState(c, secret)
    ensures var both := SentBy(c, a) + SentBy(c, b);
            forall i, j :: 0 <= i < |both| && 0 <= j < |both| && Opens(c, k, both[i]) && Opens(c, k, both[j]) ==> i == j
  {
    var sent := SentBy(c, a);
    var back := SentBy(c, b);
    forall i: nat | i < |sent| ensures Opens(c, k, sent[i]) ==> k == KeyAt(c, a.start.sendingChainKey, i) {
      SentAt(c, a, i);
      OnlyItsKeyOpens(c, a.start.sendingChainKey, 0, i, sent[i], k);
    }
    forall i: nat | i < |back| ensures Opens(c, k, back[i]) ==> k == KeyAt(c, b.start.sendingChainKey, i) {
      SentAt(c, b, i);
      OnlyItsKeyOpens(c, b.start.sendingChainKey, 0, i, back[i], k);
    }
  }

  lemma EnvelopesDiffer(c: Crypto, sender: Side, m: nat, n: nat)
    requires Ideal(c) && DistinctKeys(c, sender.start.sendingChainKey) && sender.start.sendMessageNumber == 0
    requires m < |SentBy(c, sender)| && n < |SentBy(c, sender)| && m != n
    ensures SentBy(c, sender)[m].envelope != SentBy(c, sender)[n].envelope
  {
    SentAt(c, sender, m);
    SentAt(c, sender, n);
    SealedIsOpened(c, sender.start.sendingChainKey, m, SentBy(c, sender)[m], m);
    SealedIsOpened(c, sender.start.sendingChainKey, n, SentBy(c, sender)[n], n);
  }

  function Place(c: Crypto, e: Side, i: nat): nat
    requires i <= |e.log|
  {
    |Received(c, e.start, e.log[..i], e.key)|
  }

  lemma DecryptedAt(c: Crypto, e: Side, i: nat, answer: ByteString)
    requires i < |e.log| && e.log[i].q.Decrypt? && IsMessage(c, e, i, answer)
    ensures Place(c, e, i) < Place(c, e, i + 1) <= |ReceivedBy(c, e)|
    ensures ReceivedBy(c, e)[Place(c, e, i)] == Exchange(answer, e.log[i].q.envelope)
  {
  }

  /** Later calls have later places. */
  lemma LaterPlace(c: Crypto, e: Side, i: nat, j: nat)
    requires i < j < |e.log|
    ensures Place(c, e, i + 1) <= Place(c, e, j)
  {
    assert e.log[..j][..i + 1] == e.log[..i + 1];
    SentGrows(c, e.start, e.log[..j], e.key, i + 1);
  }

  lemma DifferentPlaces(c: Crypto, e: Side, i: nat, j: nat)
    requires i < |e.log| && j < |e.log| && i != j
    requires Place(c, e, i) < Place(c, e, i + 1) && Place(c, e, j) < Place(c, e, j + 1)
    ensures Place(c, e, i) != Place(c, e, j)
  {
    if i < j {
      LaterPlace(c, e, i, j);
    } else {
      LaterPlace(c, e, j, i);
    }
  }

  lemma EntriesDiffer(c: Crypto, sender: Side, e: Side, i: nat, j: nat, x: ByteString, y: ByteString)
    requires Channel(c, sender, e) && AllCameFrom(c, sender, e)
    requires i < |e.log| && j < |e.log| && i != j && e.log[i].q.Decrypt? && e.log[j].q.Decrypt?
    requires IsMessage(c, e, i, x) && IsMessage(c, e, j, y)
    ensures e.log[i].q.envelope != e.log[j].q.envelope && Exchange(x, e.log[i].q.envelope) in SentBy(c, sender)
  {
    ReadsAreAPrefix(c, sender, e);
    DecryptedAt(c, e, i, x);
    DecryptedAt(c, e, j, y);
    DifferentPlaces(c, e, i, j);
    var m := Place(c, e, i);
    var n := Place(c, e, j);
    assert SentBy(c, sender)[m] == ReceivedBy(c, e)[m] && SentBy(c, sender)[n] == ReceivedBy(c, e)[n];
    EnvelopesDiffer(c, sender, m, n);
  }

  ghost predicate Decrypted(s: State<Call, RatchetState, ByteString>, id: nat, key: string) {
    id in s.jobs && s.jobs[id].key == key && s.jobs[id].q.Decrypt? && s.jobs[id].pc.Returned?
  }

  /**
   However calls interleave: of the calls on one session that returned from
   decrypting, no two decrypted the same envelope, and each answered what the other
   side had put into its own.
   */
  lemma NoEnvelopeTwice(c: Crypto, sender: Side, steps: seq<Step<Call, RatchetState>>, key: string, a: nat, b: nat)
    requires Runnable(Body(c), Empty<Call, RatchetState, ByteString>(), steps) && a != b
    requires var s := Run(Body(c), Empty<Call, RatchetState, ByteString>(), steps);
             && Decrypted(s, a, key) && Decrypted(s, b, key) && key in s.issued
             && Channel(c, sender, SideOf(s, key)) && AllCameFrom(c, sender, SideOf(s, key))
    ensures var s := Run(Body(c), Empty<Call, RatchetState, ByteString>(), steps);
            && s.jobs[a].q.envelope != s.jobs[b].q.envelope
            && Exchange(s.jobs[a].pc.answer, s.jobs[a].q.envelope) in SentBy(c, sender)
  {
    var s := Run(Body(c), Empty<Call, RatchetState, ByteString>(), steps);
    AnswersAreMessages(c, steps, a);
    AnswersAreMessages(c, steps, b);
    var i: nat :| i < |s.log| && s.log[i] == Entry(a, key, s.jobs[a].q) && IsMessage(c, SideOf(s, key), i, s.jobs[a].pc.answer);
    var j: nat :| j < |s.log| && s.log[j] == Entry(b, key, s.jobs[b].q) && IsMessage(c, SideOf(s, key), j, s.jobs[b].pc.answer);
    EntriesDiffer(c, sender, SideOf(s, key), i, j, s.jobs[a].pc.answer, s.jobs[b].pc.answer);
  }
}
