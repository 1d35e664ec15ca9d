/**
 The multi-recipient envelope: one content key, wrapped for each recipient in
 a block of its own.

 Key agreement, key derivation, authenticated encryption and the recipient tag
 are a parameter, and what is assumed of them is said where it is used; the
 writer's random values are arguments.
 */
module SealedEnvelope {
  import opened Wrappers
  import opened Bytes

  const FORMAT_VERSION: Byte := 1
  const KEY_LEN: nat := 32
  const ID_LEN: nat := 16
  const NONCE_LEN: nat := 24
  const TAG_LEN: nat := 16
  const BLOCK_LEN: nat := ID_LEN + NONCE_LEN + KEY_LEN + TAG_LEN
  const HEADER_LEN: nat := 2 + KEY_LEN

  type Octets = ByteString

  /** `wrapKey` is key agreement followed by key derivation. */
  datatype Crypto = Crypto(publicOf: Octets -> Octets, wrapKey: (Octets, Octets) -> Octets, idOf: Octets -> Octets,
                           seal: (Octets, Octets, Octets) -> Octets, open: (Octets, Octets, Octets) -> Option<Octets>)

  /** Sizes, agreement on the wrapping key, and opening what was sealed under the same key. */
  ghost predicate Works(c: Crypto) {
    && (forall x :: |c.publicOf(x)| == KEY_LEN)
    && (forall x, y :: c.wrapKey(x, c.publicOf(y)) == c.wrapKey(y, c.publicOf(x)))
    && (forall p :: |c.idOf(p)| == ID_LEN)
    && (forall k, n, p :: |c.seal(k, n, p)| == |p| + TAG_LEN && c.open(k, n, c.seal(k, n, p)) == Some(p))
  }

  /** No recipient other than the reader has the reader's tag. */
  ghost predicate TagIsOwn(c: Crypto, recipients: seq<Octets>, publicKey: Octets) {
    forall p :: p in recipients && c.idOf(p) == c.idOf(publicKey) ==> p == publicKey
  }

  datatype Error = NoRecipients | TooManyRecipients | BadRecipient | TooShort | BadVersion | Truncated | NotARecipient | BadTag

  // ----- Writing -----

  /** The random values of one call; one nonce per recipient. */
  datatype Randomness = Randomness(ephemeral: Octets, contentKey: Octets, nonces: seq<Octets>, contentNonce: Octets)

  predicate Drawn(r: Randomness, recipients: nat) {
    && |r.contentKey| == KEY_LEN && |r.contentNonce| == NONCE_LEN && |r.nonces| == recipients
    && forall i :: 0 <= i < |r.nonces| ==> |r.nonces[i]| == NONCE_LEN
  }

  function BlockFor(c: Crypto, r: Randomness, recipient: Octets, nonce: Octets): Octets {
    c.idOf(recipient) + nonce + c.seal(c.wrapKey(r.ephemeral, recipient), nonce, r.contentKey)
  }

  function Blocks(c: Crypto, r: Randomness, recipients: seq<Octets>, nonces: seq<Octets>): Octets
    requires |recipients| == |nonces|
  {
    if recipients == [] then []
    else BlockFor(c, r, recipients[0], nonces[0]) + Blocks(c, r, recipients[1..], nonces[1..])
  }

  function Encrypt(c: Crypto, r: Randomness, recipients: seq<Octets>, plaintext: Octets): Result<Octets, Error>
    requires Drawn(r, |recipients|)
  {
    if |recipients| == 0 then Err(NoRecipients)
    else if |recipients| > 255 then Err(TooManyRecipients)
    else if exists i :: 0 <= i < |recipients| && |recipients[i]| != KEY_LEN then Err(BadRecipient)
    else
      Ok([FORMAT_VERSION, |recipients|] + c.publicOf(r.ephemeral) + Blocks(c, r, recipients, r.nonces)
         + r.contentNonce + c.seal(r.contentKey, r.contentNonce, plaintext))
  }

  // ----- Reading -----

  function BlockAt(ciphertext: Octets, i: nat): (block: Octets)
    requires HEADER_LEN + (i + 1) * BLOCK_LEN <= |ciphertext|
    ensures |block| == BLOCK_LEN
  {
    ciphertext[HEADER_LEN + i * BLOCK_LEN..HEADER_LEN + (i + 1) * BLOCK_LEN]
  }

  /** The content key after the first `n` blocks; a matching block that does not open ends the search. */
  function Unwrapped(c: Crypto, privateKey: Octets, publicKey: Octets, ciphertext: Octets, n: nat): Result<Option<Octets>, Error>
    requires HEADER_LEN + n * BLOCK_LEN <= |ciphertext|
  {
    if n == 0 then Ok(None)
    else
      match Unwrapped(c, privateKey, publicKey, ciphertext, n - 1)
      case Err(e) => Err(e)
      case Ok(key) =>
        var block := BlockAt(ciphertext, n - 1);
        if block[..ID_LEN] != c.idOf(publicKey) then Ok(key)
        else
          match c.open(c.wrapKey(privateKey, ciphertext[2..HEADER_LEN]), block[ID_LEN..ID_LEN + NONCE_LEN], block[ID_LEN + NONCE_LEN..])
          case None => Err(BadTag)
          case Some(found) => Ok(Some(found))
  }

  function Decrypt(c: Crypto, privateKey: Octets, publicKey: Octets, ciphertext: Octets): Result<Octets, Error> {
    if |ciphertext| < HEADER_LEN + NONCE_LEN then Err(TooShort)
    else if ciphertext[0] != FORMAT_VERSION then Err(BadVersion)
    else
      var n: nat := ciphertext[1];
      var start := HEADER_LEN + n * BLOCK_LEN;
      if |ciphertext| < start + NONCE_LEN then Err(Truncated)
      else
        match Unwrapped(c, privateKey, publicKey, ciphertext, n)
        case Err(e) => Err(e)
        case Ok(None) => Err(NotARecipient)
        case Ok(Some(key)) =>
          match c.open(key, ciphertext[start..start + NONCE_LEN], ciphertext[start + NONCE_LEN..])
          case None => Err(BadTag)
          case Some(plaintext) => Ok(plaintext)
  }

  method DecryptEnvelope(c: Crypto, privateKey: Octets, publicKey: Octets, ciphertext: Octets) returns (r: Result<Octets, Error>)
    ensures r == Decrypt(c, privateKey, publicKey, ciphertext)
  {
    if |ciphertext| < 2 + KEY_LEN + NONCE_LEN {
      return Err(TooShort);
    }
    var offset: nat := 0;
    var version := ciphertext[offset];
    offset := offset + 1;
    if version != FORMAT_VERSION {
      return Err(BadVersion);
    }
    var count: nat := ciphertext[offset];
    offset := offset + 1;
    var ephemeralPublic := ciphertext[offset..offset + KEY_LEN];
    offset := offset + KEY_LEN;
    if |ciphertext| < offset + count * BLOCK_LEN + NONCE_LEN {
      return Err(Truncated);
    }
    var myId := c.idOf(publicKey);
    var key: Option<Octets> := None;
    for i := 0 to count
      invariant offset == HEADER_LEN + i * BLOCK_LEN
      invariant Unwrapped(c, privateKey, publicKey, ciphertext, i) == Ok(key)
    {
      var block := ciphertext[offset..offset + BLOCK_LEN];
      offset := offset + BLOCK_LEN;
      if block[..ID_LEN] == myId {
        var nonce := block[ID_LEN..ID_LEN + NONCE_LEN];
        var wrapped := block[ID_LEN + NONCE_LEN..];
        key := c.open(c.wrapKey(privateKey, ephemeralPublic), nonce, wrapped);
        if key.None? {
          ErrorStays(c, privateKey, publicKey, ciphertext, i + 1, count);
          return Err(BadTag);
        }
      }
    }
    if key.None? {
      return Err(NotARecipient);
    }
    var contentNonce := ciphertext[offset..offset + NONCE_LEN];
    offset := offset + NONCE_LEN;
    var plaintext := c.open(key.value, contentNonce, ciphertext[offset..]);
    if plaintext.None? {
      return Err(BadTag);
    }
    return Ok(plaintext.value);
  }

  lemma {:induction false} ErrorStays(c: Crypto, privateKey: Octets, publicKey: Octets, ciphertext: Octets, i: nat, n: nat)
    requires i <= n && HEADER_LEN + n * BLOCK_LEN <= |ciphertext|
    requires Unwrapped(c, privateKey, publicKey, ciphertext, i).Err?
    ensures Unwrapped(c, privateKey, publicKey, ciphertext, n) == Unwrapped(c, privateKey, publicKey, ciphertext, i)
    decreases n - i
  {
    if i < n {
      ErrorStays(c, privateKey, publicKey, ciphertext, i, n - 1);
    }
  }

  // ----- Who can read what was written -----

  lemma {:induction false} BlocksLength(c: Crypto, r: Randomness, recipients: seq<Octets>, nonces: seq<Octets>)
    requires Works(c) && |recipients| == |nonces| && |r.contentKey| == KEY_LEN
    requires forall k :: 0 <= k < |nonces| ==> |nonces[k]| == NONCE_LEN
    ensures |Blocks(c, r, recipients, nonces)| == |recipients| * BLOCK_LEN
  {
    if recipients != [] {
      BlocksLength(c, r, recipients[1..], nonces[1..]);
    }
  }

  lemma Later(first: Octets, rest: Octets, i: nat)
    requires |first| == BLOCK_LEN && i > 0 && i * BLOCK_LEN <= |rest|
    ensures (first + rest)[i * BLOCK_LEN..(i + 1) * BLOCK_LEN] == rest[(i - 1) * BLOCK_LEN..i * BLOCK_LEN]
  {
  }

  lemma {:induction false} BlocksAt(c: Crypto, r: Randomness, recipients: seq<Octets>, nonces: seq<Octets>, i: nat)
    requires Works(c) && |recipients| == |nonces| && |r.contentKey| == KEY_LEN && i < |recipients|
    requires forall k :: 0 <= k < |nonces| ==> |nonces[k]| == NONCE_LEN
    ensures |Blocks(c, r, recipients, nonces)| == |recipients| * BLOCK_LEN
    ensures Blocks(c, r, recipients, nonces)[i * BLOCK_LEN..(i + 1) * BLOCK_LEN] == BlockFor(c, r, recipients[i], nonces[i])
    decreases i
  {
    var first, rest := BlockFor(c, r, recipients[0], nonces[0]), Blocks(c, r, recipients[1..], nonces[1..]);
    BlocksLength(c, r, recipients, nonces);
    BlocksLength(c, r, recipients[1..], nonces[1..]);
    if i > 0 {
      BlocksAt(c, r, recipients[1..], nonces[1..], i - 1);
      Later(first, rest, i);
    }
  }

  /** Where the reader finds what the writer wrote. */
  lemma WrittenParts(c: Crypto, r: Randomness, recipients: seq<Octets>, plaintext: Octets)
    requires Works(c) && Drawn(r, |recipients|) && Encrypt(c, r, recipients, plaintext).Ok?
    ensures var e := Encrypt(c, r, recipients, plaintext).value;
            var start := HEADER_LEN + |recipients| * BLOCK_LEN;
            && |e| >= start + NONCE_LEN && e[0] == FORMAT_VERSION && e[1] == |recipients|
            && e[2..HEADER_LEN] == c.publicOf(r.ephemeral)
            && e[HEADER_LEN..start] == Blocks(c, r, recipients, r.nonces)
            && e[start..start + NONCE_LEN] == r.contentNonce
            && e[start + NONCE_LEN..] == c.seal(r.contentKey, r.contentNonce, plaintext)
  {
    BlocksLength(c, r, recipients, r.nonces);
  }

  lemma WrittenBlock(c: Crypto, r: Randomness, recipients: seq<Octets>, plaintext: Octets, i: nat)
    requires Works(c) && Drawn(r, |recipients|) && Encrypt(c, r, recipients, plaintext).Ok? && i < |recipients|
    ensures var e := Encrypt(c, r, recipients, plaintext).value;
            && HEADER_LEN + (i + 1) * BLOCK_LEN <= |e|
            && BlockAt(e, i) == BlockFor(c, r, recipients[i], r.nonces[i])
  {
    WrittenParts(c, r, recipients, plaintext);
    BlocksAt(c, r, recipients, r.nonces, i);
    var e, start := Encrypt(c, r, recipients, plaintext).value, HEADER_LEN + |recipients| * BLOCK_LEN;
    assert BlockAt(e, i) == e[HEADER_LEN..start][i * BLOCK_LEN..(i + 1) * BLOCK_LEN];
  }

  /** What was wrapped for the victim does not open with the key the other private key agrees on. */
  ghost predicate StaysShut(c: Crypto, r: Randomness, privateKey: Octets, victim: Octets) {
    forall n :: c.open(c.wrapKey(privateKey, c.publicOf(r.ephemeral)), n,
                       c.seal(c.wrapKey(victim, c.publicOf(r.ephemeral)), n, r.contentKey)).None?
  }

  /** Over the written blocks the search answers the content key once a block of the reader's own has been passed. */
  lemma {:induction false} SearchFindsOwn(c: Crypto, r: Randomness, recipients: seq<Octets>, plaintext: Octets,
                                          privateKey: Octets, n: nat)
    requires Works(c) && Drawn(r, |recipients|) && Encrypt(c, r, recipients, plaintext).Ok? && n <= |recipients|
    requires TagIsOwn(c, recipients, c.publicOf(privateKey))
    ensures var e, publicKey := Encrypt(c, r, recipients, plaintext).value, c.publicOf(privateKey);
            && HEADER_LEN + n * BLOCK_LEN <= |e|
            && Unwrapped(c, privateKey, publicKey, e, n) == Ok(if publicKey in recipients[..n] then Some(r.contentKey) else None)
  {
    WrittenParts(c, r, recipients, plaintext);
    if n > 0 {
      SearchFindsOwn(c, r, recipients, plaintext, privateKey, n - 1);
      WrittenBlock(c, r, recipients, plaintext, n - 1);
      assert recipients[..n] == recipients[..n - 1] + [recipients[n - 1]];
      assert recipients[n - 1] in recipients;
      BlockParts(c, r, recipients[n - 1], r.nonces[n - 1]);
    }
  }

  lemma BlockParts(c: Crypto, r: Randomness, recipient: Octets, nonce: Octets)
    requires Works(c) && |nonce| == NONCE_LEN
    ensures var block := BlockFor(c, r, recipient, nonce);
            && block[..ID_LEN] == c.idOf(recipient) && block[ID_LEN..ID_LEN + NONCE_LEN] == nonce
            && block[ID_LEN + NONCE_LEN..] == c.seal(c.wrapKey(r.ephemeral, recipient), nonce, r.contentKey)
  {
  }

  /**
   For any number of recipients from one to 255: whoever holds the private key
   of one of them reads the plaintext, and whoever does not is told so.
   */
  lemma OnlyRecipientsRead(c: Crypto, r: Randomness, recipients: seq<Octets>, plaintext: Octets, privateKey: Octets)
    requires Works(c) && Drawn(r, |recipients|) && Encrypt(c, r, recipients, plaintext).Ok?
    requires TagIsOwn(c, recipients, c.publicOf(privateKey))
    ensures Decrypt(c, privateKey, c.publicOf(privateKey), Encrypt(c, r, recipients, plaintext).value)
            == if c.publicOf(privateKey) in recipients then Ok(plaintext) else Err(NotARecipient)
  {
    WrittenParts(c, r, recipients, plaintext);
    SearchFindsOwn(c, r, recipients, plaintext, privateKey, |recipients|);
    assert recipients[..|recipients|] == recipients;
  }

  lemma {:induction false} SearchWithBorrowedKey(c: Crypto, r: Randomness, recipients: seq<Octets>, plaintext: Octets,
                                                 privateKey: Octets, victim: Octets, n: nat)
    requires Works(c) && Drawn(r, |recipients|) && Encrypt(c, r, recipients, plaintext).Ok? && n <= |recipients|
    requires TagIsOwn(c, recipients, c.publicOf(victim)) && StaysShut(c, r, privateKey, victim)
    ensures var e := Encrypt(c, r, recipients, plaintext).value;
            && HEADER_LEN + n * BLOCK_LEN <= |e|
            && Unwrapped(c, privateKey, c.publicOf(victim), e, n) == if c.publicOf(victim) in recipients[..n] then Err(BadTag) else Ok(None)
  {
    WrittenParts(c, r, recipients, plaintext);
    if n > 0 {
      SearchWithBorrowedKey(c, r, recipients, plaintext, privateKey, victim, n - 1);
      WrittenBlock(c, r, recipients, plaintext, n - 1);
      assert recipients[..n] == recipients[..n - 1] + [recipients[n - 1]];
      assert recipients[n - 1] in recipients;
      BlockParts(c, r, recipients[n - 1], r.nonces[n - 1]);
    }
  }

  /** Naming a recipient's public key without its private key ends in a failed tag. */
  lemma BorrowedKeyFails(c: Crypto, r: Randomness, recipients: seq<Octets>, plaintext: Octets,
                         privateKey: Octets, victim: Octets)
    requires Works(c) && Drawn(r, |recipients|) && Encrypt(c, r, recipients, plaintext).Ok?
    requires TagIsOwn(c, recipients, c.publicOf(victim)) && StaysShut(c, r, privateKey, victim)
    ensures Decrypt(c, privateKey, c.publicOf(victim), Encrypt(c, r, recipients, plaintext).value)
            == Err(if c.publicOf(victim) in recipients then BadTag else NotARecipient)
  {
    WrittenParts(c, r, recipients, plaintext);
    SearchWithBorrowedKey(c, r, recipients, plaintext, privateKey, victim, |recipients|);
    assert recipients[..|recipients|] == recipients;
  }

  // ----- The format, byte by byte -----

  /** The writer takes one to 255 recipients with keys of 32 bytes. */
  lemma WriterAccepts(c: Crypto, r: Randomness, recipients: seq<Octets>, plaintext: Octets)
    requires Drawn(r, |recipients|)
    ensures Encrypt(c, r, recipients, plaintext).Ok? <==> 1 <= |recipients| <= 255 && forall p :: p in recipients ==> |p| == 32
    ensures Encrypt(c, r, recipients, plaintext).Err? ==>
              Encrypt(c, r, recipients, plaintext).error == (if recipients == [] then NoRecipients
                                                             else if |recipients| > 255 then TooManyRecipients else BadRecipient)
  {
  }

  /**
   The version, the number of recipients, 32 bytes of ephemeral key, 88 bytes for
   each recipient (16 of tag, 24 of nonce, 48 of wrapped key), 24 bytes of content
   nonce, the sealed content.
   */
  lemma EnvelopeBytes(c: Crypto, r: Randomness, recipients: seq<Octets>, plaintext: Octets)
    requires Works(c) && Drawn(r, |recipients|) && Encrypt(c, r, recipients, plaintext).Ok?
    ensures var e, n := Encrypt(c, r, recipients, plaintext).value, |recipients|;
            && |e| == 34 + 88 * n + 24 + |plaintext| + 16 && e[0] == 1 && e[1] == n && e[2..34] == c.publicOf(r.ephemeral)
            && e[34 + 88 * n..58 + 88 * n] == r.contentNonce
            && e[58 + 88 * n..] == c.seal(r.contentKey, r.contentNonce, plaintext)
  {
    WrittenParts(c, r, recipients, plaintext);
  }

  lemma BlockBytes(c: Crypto, r: Randomness, recipients: seq<Octets>, plaintext: Octets, i: nat)
    requires Works(c) && Drawn(r, |recipients|) && Encrypt(c, r, recipients, plaintext).Ok? && i < |recipients|
    ensures var e := Encrypt(c, r, recipients, plaintext).value;
            && 34 + 88 * (i + 1) <= |e|
            && e[34 + 88 * i..50 + 88 * i] == c.idOf(recipients[i]) && e[50 + 88 * i..74 + 88 * i] == r.nonces[i]
            && e[74 + 88 * i..122 + 88 * i] == c.seal(c.wrapKey(r.ephemeral, recipients[i]), r.nonces[i], r.contentKey)
  {
    WrittenBlock(c, r, recipients, plaintext, i);
    BlockParts(c, r, recipients[i], r.nonces[i]);
    BlockSlices(Encrypt(c, r, recipients, plaintext).value, i);
  }

  lemma BlockSlices(e: Octets, i: nat)
    requires 34 + 88 * (i + 1) <= |e|
    ensures BlockAt(e, i)[..16] == e[34 + 88 * i..50 + 88 * i] && BlockAt(e, i)[16..40] == e[50 + 88 * i..74 + 88 * i]
    ensures BlockAt(e, i)[40..] == e[74 + 88 * i..122 + 88 * i]
  {
    var at := 34 + 88 * i;
    assert HEADER_LEN + i * BLOCK_LEN == at && HEADER_LEN + (i + 1) * BLOCK_LEN == at + 88;
    SliceOfSlice(e, at, at + 88, 0, 16);
    SliceOfSlice(e, at, at + 88, 16, 40);
    SliceOfSlice(e, at, at + 88, 40, 88);
  }

  lemma SliceOfSlice(e: Octets, a: nat, b: nat, x: nat, y: nat)
    requires a <= b <= |e| && x <= y <= b - a
    ensures e[a..b][x..y] == e[a + x..a + y]
  {
    assert forall k :: 0 <= k < y - x ==> e[a..b][x..y][k] == e[a + x..a + y][k];
  }

  /** What the reader refuses before it looks for its block. */
  lemma Malformed(c: Crypto, privateKey: Octets, publicKey: Octets, ciphertext: Octets)
    ensures Decrypt(c, privateKey, publicKey, ciphertext) == Err(TooShort) <==> |ciphertext| < 58
    ensures Decrypt(c, privateKey, publicKey, ciphertext) == Err(BadVersion) <==> |ciphertext| >= 58 && ciphertext[0] != 1
    ensures Decrypt(c, privateKey, publicKey, ciphertext) == Err(Truncated) <==>
              58 <= |ciphertext| < 58 + 88 * (ciphertext[1] as int) && ciphertext[0] == 1
  {
    if |ciphertext| >= 58 && ciphertext[0] == 1 && |ciphertext| >= 58 + 88 * (ciphertext[1] as int) {
      SearchErrors(c, privateKey, publicKey, ciphertext, ciphertext[1]);
    }
  }

  lemma {:induction false} SearchErrors(c: Crypto, privateKey: Octets, publicKey: Octets, ciphertext: Octets, n: nat)
    requires HEADER_LEN + n * BLOCK_LEN <= |ciphertext|
    ensures Unwrapped(c, privateKey, publicKey, ciphertext, n).Err? ==> Unwrapped(c, privateKey, publicKey, ciphertext, n) == Err(BadTag)
  {
    if n > 0 {
      SearchErrors(c, privateKey, publicKey, ciphertext, n - 1);
    }
  }
}
