/** The session establishment payload: fixed-size keys, two length-prefixed ids, one of them optional. */
module SessionPayload {
  import opened Wrappers
  import opened Bytes

  const FORMAT_VERSION: Byte := 1
  const KEY_LEN: nat := 32
  const SIGNATURE_LEN: nat := 64
  const MAX_ID_LEN: nat := 255

  /** Prekey ids are the bytes of their text. */
  datatype Payload = Payload(ephemeralKey: ByteString, identityKey: ByteString, signature: ByteString,
                             signedPrekeyId: ByteString, oneTimePrekeyId: Option<ByteString>)

  datatype Error = WrongLength | IdTooLong | TooShort | BadVersion

  // ----- Encoding -----

  function EncodeId(id: ByteString): Result<ByteString, Error> {
    if |id| > MAX_ID_LEN then Err(IdTooLong) else Ok([|id|] + id)
  }

  function Encode(p: Payload): Result<ByteString, Error> {
    if |p.ephemeralKey| != KEY_LEN || |p.identityKey| != KEY_LEN || |p.signature| != SIGNATURE_LEN then Err(WrongLength)
    else
      match EncodeId(p.signedPrekeyId)
      case Err(e) => Err(e)
      case Ok(signed) =>
        var flags: Byte := if p.oneTimePrekeyId.Some? then 1 else 0;
        var front := [FORMAT_VERSION] + p.ephemeralKey + p.identityKey + p.signature + signed + [flags];
        match p.oneTimePrekeyId
        case None => Ok(front)
        case Some(id) =>
          match EncodeId(id)
          case Err(e) => Err(e)
          case Ok(oneTime) => Ok(front + oneTime)
  }

  // ----- Decoding -----

  /** Reads through the bytes at a moving offset, as the decoder's helpers do. */
  class Reader {
    const bytes: ByteString
    var offset: nat

    ghost predicate Valid()
      reads this
    {
      offset <= |bytes|
    }

    constructor (bytes: ByteString)
      ensures this.bytes == bytes && offset == 0
    {
      this.bytes := bytes;
      offset := 0;
    }

    method ReadByte() returns (r: Option<Byte>)
      requires Valid()
      modifies this
      ensures Valid()
      ensures r.Some? <==> old(offset) < |bytes|
      ensures r.Some? ==> r.value == bytes[old(offset)] && offset == old(offset) + 1
    {
      if offset >= |bytes| {
        return None;
      }
      offset := offset + 1;
      return Some(bytes[offset - 1]);
    }

    method ReadFixed(len: nat) returns (r: Option<ByteString>)
      requires Valid()
      modifies this
      ensures Valid()
      ensures r.Some? <==> old(offset) + len <= |bytes|
      ensures r.Some? ==> r.value == bytes[old(offset)..old(offset) + len] && offset == old(offset) + len
    {
      if offset + len > |bytes| {
        return None;
      }
      var out := bytes[offset..offset + len];
      offset := offset + len;
      return Some(out);
    }

    method ReadId() returns (r: Option<ByteString>)
      requires Valid()
      modifies this
      ensures Valid()
      ensures var rest := bytes[old(offset)..];
              && (r.Some? <==> IdAhead(rest))
              && (r.Some? ==> r.value == IdOf(rest) && offset == old(offset) + 1 + |r.value|)
    {
      var len := ReadByte();
      if len.None? {
        return None;
      }
      r := ReadFixed(len.value);
      assert r.Some? ==> r.value == bytes[old(offset)..][1..1 + len.value];
    }
  }

  /** A whole length-prefixed id stands at the front. */
  predicate IdAhead(rest: ByteString) {
    rest != [] && 1 + rest[0] <= |rest|
  }

  function IdOf(rest: ByteString): (id: ByteString)
    requires IdAhead(rest)
    ensures |id| == rest[0] <= MAX_ID_LEN && rest == [rest[0]] + id + rest[1 + |id|..]
  {
    rest[1..1 + rest[0]]
  }

  const FIXED: nat := 1 + KEY_LEN + KEY_LEN + SIGNATURE_LEN

  /** What the decoder answers for the bytes, flags byte included, and what it leaves unread. */
  datatype Parsed = Parsed(payload: Payload, flags: Byte, unread: ByteString)

  function Parse(bytes: ByteString): Option<Parsed> {
    if |bytes| < FIXED || bytes[0] != FORMAT_VERSION then None
    else
      var afterKeys := bytes[FIXED..];
      if !IdAhead(afterKeys) then None
      else
        var signed := IdOf(afterKeys);
        var afterId := afterKeys[1 + |signed|..];
        if afterId == [] then None
        else
          var flags, rest := afterId[0], afterId[1..];
          if flags % 2 == 0 then
            Some(Parsed(Payload(bytes[1..33], bytes[33..65], bytes[65..129], signed, None), flags, rest))
          else if !IdAhead(rest) then None
          else
            var oneTime := IdOf(rest);
            Some(Parsed(Payload(bytes[1..33], bytes[33..65], bytes[65..129], signed, Some(oneTime)), flags, rest[1 + |oneTime|..]))
  }

  method DecodeSessionEstablishmentPayload(bytes: ByteString) returns (r: Result<Payload, Error>)
    ensures r.Ok? <==> Parse(bytes).Some?
    ensures r.Ok? ==> r.value == Parse(bytes).value.payload
    ensures r.Err? ==> r.error == if bytes != [] && bytes[0] != 1 then BadVersion else TooShort
  {
    var reader := new Reader(bytes);
    var version := reader.ReadByte();
    if version.None? {
      return Err(TooShort);
    }
    if version.value != FORMAT_VERSION {
      return Err(BadVersion);
    }
    var ephemeral := reader.ReadFixed(KEY_LEN);
    if ephemeral.None? {
      return Err(TooShort);
    }
    var identity := reader.ReadFixed(KEY_LEN);
    if identity.None? {
      return Err(TooShort);
    }
    var signature := reader.ReadFixed(SIGNATURE_LEN);
    if signature.None? {
      return Err(TooShort);
    }
    var signed := reader.ReadId();
    if signed.None? {
      return Err(TooShort);
    }
    ghost var afterId := bytes[FIXED..][1 + |signed.value|..];
    assert afterId == bytes[reader.offset..];
    var flags := reader.ReadByte();
    if flags.None? {
      return Err(TooShort);
    }
    var oneTime: Option<ByteString> := None;
    assert afterId[1..] == bytes[reader.offset..];
    if flags.value % 2 == 1 {
      oneTime := reader.ReadId();
      if oneTime.None? {
        return Err(TooShort);
      }
    }
    return Ok(Payload(ephemeral.value, identity.value, signature.value, signed.value, oneTime));
  }

  // ----- Round trips -----

  /** The bytes of a payload with the given flags byte, and more bytes behind. */
  function Layout(p: Payload, flags: Byte, unread: ByteString): ByteString
    requires |p.signedPrekeyId| <= 255 && (p.oneTimePrekeyId.Some? ==> |p.oneTimePrekeyId.value| <= 255)
  {
    var tail := if p.oneTimePrekeyId.None? then unread
                else ([|p.oneTimePrekeyId.value|] + p.oneTimePrekeyId.value) + unread;
    ([1] + p.ephemeralKey + p.identityKey + p.signature) + (([|p.signedPrekeyId|] + p.signedPrekeyId) + ([flags] + tail))
  }

  predicate Encodable(p: Payload) {
    |p.ephemeralKey| == 32 && |p.identityKey| == 32 && |p.signature| == 64
    && |p.signedPrekeyId| <= 255 && (p.oneTimePrekeyId.Some? ==> |p.oneTimePrekeyId.value| <= 255)
  }

  lemma EncodeIsLayout(p: Payload)
    ensures Encode(p).Ok? <==> Encodable(p)
    ensures Encode(p).Ok? ==> Encode(p).value == Layout(p, if p.oneTimePrekeyId.Some? then 1 else 0, [])
  {
  }

  lemma IdAtFront(id: ByteString, rest: ByteString)
    requires |id| <= MAX_ID_LEN
    ensures var all := ([|id|] + id) + rest;
            IdAhead(all) && IdOf(all) == id && all[1 + |id|..] == rest
  {
  }

  lemma FixedPartRead(p: Payload, afterKeys: ByteString)
    requires Encodable(p)
    ensures var bytes := ([FORMAT_VERSION] + p.ephemeralKey + p.identityKey + p.signature) + afterKeys;
            && bytes[0] == FORMAT_VERSION && bytes[1..33] == p.ephemeralKey && bytes[33..65] == p.identityKey
            && bytes[65..129] == p.signature && bytes[FIXED..] == afterKeys
  {
  }

  /** Everything up to the flags is read back, whatever follows them. */
  lemma FrontRead(p: Payload, flags: Byte, tail: ByteString)
    requires Encodable(p)
    ensures var afterKeys := ([|p.signedPrekeyId|] + p.signedPrekeyId) + ([flags] + tail);
            && IdAhead(afterKeys) && IdOf(afterKeys) == p.signedPrekeyId
            && afterKeys[1 + |p.signedPrekeyId|..] == [flags] + tail && ([flags] + tail)[1..] == tail
  {
    IdAtFront(p.signedPrekeyId, [flags] + tail);
  }

  lemma ParseReadsLayout(p: Payload, flags: Byte, unread: ByteString)
    requires Encodable(p) && (flags % 2 == 1 <==> p.oneTimePrekeyId.Some?)
    ensures Parse(Layout(p, flags, unread)) == Some(Parsed(p, flags, unread))
  {
    var tail := if p.oneTimePrekeyId.None? then unread
                else ([|p.oneTimePrekeyId.value|] + p.oneTimePrekeyId.value) + unread;
    FixedPartRead(p, ([|p.signedPrekeyId|] + p.signedPrekeyId) + ([flags] + tail));
    FrontRead(p, flags, tail);
    if p.oneTimePrekeyId.Some? {
      IdAtFront(p.oneTimePrekeyId.value, unread);
    }
  }

  lemma LayoutOfParse(bytes: ByteString)
    requires Parse(bytes).Some?
    ensures var (p, flags) := (Parse(bytes).value.payload, Parse(bytes).value.flags);
            && Encodable(p) && (flags % 2 == 1 <==> p.oneTimePrekeyId.Some?)
            && bytes == Layout(p, flags, Parse(bytes).value.unread)
  {
    var parsed := Parse(bytes).value;
    var afterKeys := bytes[FIXED..];
    var afterId := afterKeys[1 + |parsed.payload.signedPrekeyId|..];
    assert bytes == ([bytes[0]] + bytes[1..33] + bytes[33..65] + bytes[65..129]) + afterKeys;
    assert afterId == [afterId[0]] + afterId[1..];
  }

  /**
   What the decoder accepts, and as what: exactly the layouts of a payload with
   any flags byte whose lowest bit tells whether there is a one-time prekey id,
   and any bytes behind.
   */
  lemma DecoderAcceptsLayouts(bytes: ByteString, p: Payload)
    ensures (Parse(bytes).Some? && Parse(bytes).value.payload == p)
            <==> exists flags, unread :: Encodable(p) && (flags % 2 == 1 <==> p.oneTimePrekeyId.Some?) && bytes == Layout(p, flags, unread)
  {
    if Parse(bytes).Some? && Parse(bytes).value.payload == p {
      LayoutOfParse(bytes);
    }
    if flags, unread :| Encodable(p) && (flags % 2 == 1 <==> p.oneTimePrekeyId.Some?) && bytes == Layout(p, flags, unread) {
      ParseReadsLayout(p, flags, unread);
    }
  }

  lemma DecodeUndoesEncode(p: Payload)
    requires Encode(p).Ok?
    ensures Parse(Encode(p).value).Some? && Parse(Encode(p).value).value.payload == p
  {
    EncodeIsLayout(p);
    ParseReadsLayout(p, if p.oneTimePrekeyId.Some? then 1 else 0, []);
  }

  /** Encoding what was decoded gives the input back exactly when nothing was left unread and no other flag was set. */
  lemma ReencodesIff(bytes: ByteString)
    requires Parse(bytes).Some?
    ensures var parsed := Parse(bytes).value;
            Encode(parsed.payload) == Ok(bytes) <==> parsed.unread == [] && parsed.flags <= 1
  {
    var parsed := Parse(bytes).value;
    LayoutOfParse(bytes);
    EncodeIsLayout(parsed.payload);
    if Encode(parsed.payload) == Ok(bytes) {
      ParseReadsLayout(parsed.payload, if parsed.payload.oneTimePrekeyId.Some? then 1 else 0, []);
    }
  }
}
