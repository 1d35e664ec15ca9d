/** The per-message envelope: version, 24-byte nonce, 4-byte sequence number, ciphertext. */
module MessageEnvelope {
  import opened Wrappers
  import opened Bytes

  const FORMAT_VERSION: Byte := 1
  const NONCE_LEN: nat := 24
  const SEQUENCE_LEN: nat := 4
  const HEADER_LEN: nat := 1 + NONCE_LEN + SEQUENCE_LEN
  const MAX_UINT32 := 0xffff_ffff

  datatype Message = Message(nonce: ByteString, sequenceNumber: int, ciphertext: ByteString)

  datatype Error = BadNonce | BadSequence | TooShort | BadVersion

  /** Big-endian. */
  function Uint32Bytes(n: int): (bytes: ByteString)
    requires 0 <= n <= MAX_UINT32
    ensures |bytes| == SEQUENCE_LEN
  {
    [n / 0x100_0000, n / 0x1_0000 % 256, n / 0x100 % 256, n % 256]
  }

  function Uint32Of(bytes: ByteString): (n: int)
    requires |bytes| == SEQUENCE_LEN
    ensures 0 <= n <= MAX_UINT32
  {
    (bytes[0] as int) * 0x100_0000 + (bytes[1] as int) * 0x1_0000 + (bytes[2] as int) * 0x100 + bytes[3]
  }

  lemma Uint32RoundTrip(n: int)
    requires 0 <= n <= MAX_UINT32
    ensures Uint32Of(Uint32Bytes(n)) == n
  {
    assert n / 0x100 / 0x100 == n / 0x1_0000 && n / 0x1_0000 / 0x100 == n / 0x100_0000;
  }

  lemma BytesRoundTrip(bytes: ByteString)
    requires |bytes| == SEQUENCE_LEN
    ensures Uint32Bytes(Uint32Of(bytes)) == bytes
  {
    var n := Uint32Of(bytes);
    assert n / 0x100_0000 == bytes[0] as int;
    assert n / 0x1_0000 == (bytes[0] as int) * 256 + bytes[1];
    assert n / 0x100 == ((bytes[0] as int) * 256 + bytes[1]) * 256 + bytes[2];
  }

  function Encode(m: Message): Result<ByteString, Error> {
    if |m.nonce| != NONCE_LEN then Err(BadNonce)
    else if m.sequenceNumber < 0 || m.sequenceNumber > MAX_UINT32 then Err(BadSequence)
    else Ok([FORMAT_VERSION] + m.nonce + Uint32Bytes(m.sequenceNumber) + m.ciphertext)
  }

  function Decode(envelope: ByteString): Result<Message, Error> {
    if |envelope| < HEADER_LEN then Err(TooShort)
    else if envelope[0] != FORMAT_VERSION then Err(BadVersion)
    else Ok(Message(envelope[1..25], Uint32Of(envelope[25..29]), envelope[29..]))
  }

  method DecodeMessageEnvelope(envelope: ByteString) returns (r: Result<Message, Error>)
    ensures r == Decode(envelope)
    ensures r.Err? ==> r.error == if |envelope| < 29 then TooShort else BadVersion
  {
    if |envelope| < HEADER_LEN {
      return Err(TooShort);
    }
    var offset := 0;
    var version := envelope[offset];
    offset := offset + 1;
    if version != FORMAT_VERSION {
      return Err(BadVersion);
    }
    var nonce := envelope[offset..offset + NONCE_LEN];
    offset := offset + NONCE_LEN;
    var sequenceBytes := envelope[offset..offset + SEQUENCE_LEN];
    offset := offset + SEQUENCE_LEN;
    return Ok(Message(nonce, Uint32Of(sequenceBytes), envelope[offset..]));
  }

  /** Byte by byte: the version, 24 bytes of nonce, the number with its high byte first, the ciphertext. */
  lemma EnvelopeBytes(m: Message)
    ensures Encode(m).Ok? <==> |m.nonce| == 24 && 0 <= m.sequenceNumber < 0x1_0000_0000
    ensures Encode(m).Ok? ==>
              var e := Encode(m).value;
              && |e| == 29 + |m.ciphertext| && e[0] == 1 && e[1..25] == m.nonce && e[29..] == m.ciphertext
              && (e[25] as int) * 0x100_0000 + (e[26] as int) * 0x1_0000 + (e[27] as int) * 0x100 + e[28] == m.sequenceNumber
  {
    if Encode(m).Ok? {
      Uint32RoundTrip(m.sequenceNumber);
      assert Encode(m).value[25..29] == Uint32Bytes(m.sequenceNumber);
    }
  }

  /**
   Encoding and decoding are inverse bijections between the messages that can
   be encoded and the byte strings of 29 bytes or more that start with the version.
   */
  lemma DecodeUndoesEncode(m: Message)
    requires Encode(m).Ok?
    ensures Decode(Encode(m).value) == Ok(m)
  {
    var e := Encode(m).value;
    assert e[1..25] == m.nonce && e[25..29] == Uint32Bytes(m.sequenceNumber) && e[29..] == m.ciphertext;
    Uint32RoundTrip(m.sequenceNumber);
  }

  lemma EncodeUndoesDecode(envelope: ByteString)
    ensures Decode(envelope).Ok? <==> |envelope| >= 29 && envelope[0] == 1
    ensures Decode(envelope).Ok? ==> Encode(Decode(envelope).value) == Ok(envelope)
  {
    if Decode(envelope).Ok? {
      BytesRoundTrip(envelope[25..29]);
      assert envelope == [envelope[0]] + envelope[1..25] + envelope[25..29] + envelope[29..];
    }
  }
}
