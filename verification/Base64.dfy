/**
 Base64 over bytes: the two loops, and the encoding of section 4 of RFC 4648.

 JavaScript's shifts work on signed 32-bit integers; a shift left is a
 multiplication that wraps, a shift right a division that rounds down, and the
 masks take remainders.
 */
module Base64 {
  import opened Wrappers
  import opened Bytes

  type Sextet = v: int | 0 <= v < 64

  /** The alphabet: capitals, small letters, digits, plus and slash. */
  function Letter(v: Sextet): char {
    if v < 26 then ('A' as int + v) as char
    else if v < 52 then ('a' as int + v - 26) as char
    else if v < 62 then ('0' as int + v - 52) as char
    else if v == 62 then '+'
    else '/'
  }

  // ----- Bits -----

  type Bits = seq<bool>

  function Pow2(k: nat): (p: int)
    ensures p > 0
  {
    if k == 0 then 1 else 2 * Pow2(k - 1)
  }

  /** The `k` low bits of a number, most significant first. */
  function LowBits(n: int, k: nat): (bits: Bits)
    ensures |bits| == k
    decreases k, n
  {
    if k == 0 then [] else LowBits(n / 2, k - 1) + [n % 2 == 1]
  }

  function Value(bits: Bits): int {
    if bits == [] then 0 else 2 * Value(bits[..|bits| - 1]) + if bits[|bits| - 1] then 1 else 0
  }

  lemma {:induction false} ValueOfLowBits(n: int, k: nat)
    requires 0 <= n < Pow2(k)
    ensures Value(LowBits(n, k)) == n
  {
    if k > 0 {
      ValueOfLowBits(n / 2, k - 1);
      assert LowBits(n, k)[..k - 1] == LowBits(n / 2, k - 1);
    }
  }

  lemma {:induction false} ValueIsBounded(bits: Bits)
    ensures 0 <= Value(bits) < Pow2(|bits|)
  {
    if bits != [] {
      ValueIsBounded(bits[..|bits| - 1]);
    }
  }

  lemma {:induction false} ValueOfJoin(a: Bits, b: Bits)
    ensures Value(a + b) == Value(a) * Pow2(|b|) + Value(b)
    decreases |b|
  {
    if b == [] {
      assert a + b == a;
    } else {
      var init := b[..|b| - 1];
      ValueOfJoin(a, init);
      assert (a + b)[..|a + b| - 1] == a + init;
      assert Value(a) * Pow2(|b|) == 2 * (Value(a) * Pow2(|init|)) by {
        assert Pow2(|b|) == 2 * Pow2(|init|);
      }
    }
  }

  /** A number written with `c` in its low `k` bits and `a` above. */
  lemma {:induction false} JoinedBits(a: int, j: nat, c: int, k: nat, p: int)
    requires p == Pow2(k) && 0 <= c < p
    ensures LowBits(a * p + c, j + k) == LowBits(a, j) + LowBits(c, k)
    decreases k
  {
    if k == 0 {
      assert LowBits(a, j) + [] == LowBits(a, j);
    } else {
      var half := Pow2(k - 1);
      assert a * p == 2 * (a * half);
      JoinedBits(a, j, c / 2, k - 1, half);
      assert (a * p + c) / 2 == a * half + c / 2;
    }
  }

  lemma PowersOfTwo()
    ensures Pow2(2) == 4 && Pow2(4) == 16 && Pow2(6) == 64 && Pow2(8) == 256 && Pow2(12) == 4096 && Pow2(16) == 65536 && Pow2(18) == 262144
  {
    assert Pow2(3) == 8 && Pow2(5) == 32 && Pow2(7) == 128 && Pow2(9) == 512 && Pow2(10) == 1024 && Pow2(11) == 2048;
    assert Pow2(13) == 8192 && Pow2(14) == 16384 && Pow2(15) == 32768 && Pow2(17) == 131072;
  }

  // ----- Section 4 of RFC 4648 -----

  function BitsOf(bytes: ByteString): (bits: Bits)
    ensures |bits| == 8 * |bytes|
  {
    if bytes == [] then [] else LowBits(bytes[0], 8) + BitsOf(bytes[1..])
  }

  function SextetOf(bits: Bits): Sextet
    requires |bits| == 6
  {
    ValueIsBounded(bits);
    PowersOfTwo();
    Value(bits)
  }

  /** The input bits in groups of six, the last one filled up with zero bits. */
  function Groups(bits: Bits): seq<Sextet> {
    if bits == [] then []
    else if |bits| < 6 then [SextetOf(bits + LowBits(0, 6 - |bits|))]
    else [SextetOf(bits[..6])] + Groups(bits[6..])
  }

  function Letters(values: seq<Sextet>): (s: string)
    ensures |s| == |values|
  {
    seq(|values|, k requires 0 <= k < |values| => Letter(values[k]))
  }

  function Padding(letters: nat): string {
    match letters % 4
    case 2 => "=="
    case 3 => "="
    case _ => ""
  }

  /** Padding brings the output to a multiple of four characters. */
  function Encoding(bytes: ByteString): string {
    var letters := Letters(Groups(BitsOf(bytes)));
    letters + Padding(|letters|)
  }

  // ----- The same bits, in bytes and in sextets -----

  lemma JoinTwo(a: int, j: nat, c: int, k: nat, p: int, n: int, size: nat)
    requires p == Pow2(k) && 0 <= c < p && n == a * p + c && size == j + k
    ensures LowBits(n, size) == LowBits(a, j) + LowBits(c, k)
  {
    JoinedBits(a, j, c, k, p);
  }

  lemma JoinThree(a: int, b: int, c: int, w: nat, p: int, m: int, n: int, size: nat)
    requires p == Pow2(w) && 0 <= b < p && 0 <= c < p && m == a * p + b && n == m * p + c && size == w + w + w
    ensures LowBits(n, size) == LowBits(a, w) + LowBits(b, w) + LowBits(c, w)
  {
    JoinTwo(a, w, b, w, p, m, w + w);
    JoinTwo(m, w + w, c, w, p, n, size);
  }

  lemma BitsInBytes(b0: Byte, b1: Byte, b2: Byte, m: int, n: int)
    requires m == (b0 as int) * 256 + b1 && n == m * 256 + b2
    ensures LowBits(n, 24) == LowBits(b0, 8) + LowBits(b1, 8) + LowBits(b2, 8)
  {
    PowersOfTwo();
    JoinThree(b0, b1, b2, 8, 256, m, n, 24);
  }

  lemma BitsInSextets(v0: Sextet, v1: Sextet, v2: Sextet, v3: Sextet, l: int, m: int, n: int)
    requires l == (v0 as int) * 64 + v1 && m == l * 64 + v2 && n == m * 64 + v3
    ensures LowBits(n, 24) == LowBits(v0, 6) + LowBits(v1, 6) + LowBits(v2, 6) + LowBits(v3, 6)
  {
    PowersOfTwo();
    JoinThree(v0, v1, v2, 6, 64, l, m, 18);
    JoinTwo(m, 18, v3, 6, 64, n, 24);
  }

  /** Three bytes are the same 24 bits as four sextets. */
  lemma ThreeBytesFourSextets(b0: Byte, b1: Byte, b2: Byte, v0: Sextet, v1: Sextet, v2: Sextet, v3: Sextet, n: int)
    requires n == (b0 as int) * 65536 + (b1 as int) * 256 + b2 == (v0 as int) * 262144 + (v1 as int) * 4096 + (v2 as int) * 64 + v3
    ensures LowBits(b0, 8) + LowBits(b1, 8) + LowBits(b2, 8) == LowBits(v0, 6) + LowBits(v1, 6) + LowBits(v2, 6) + LowBits(v3, 6)
  {
    var l: int := (v0 as int) * 64 + v1;
    BitsInBytes(b0, b1, b2, (b0 as int) * 256 + b1, n);
    BitsInSextets(v0, v1, v2, v3, l, l * 64 + v2, n);
  }

  lemma OneByteTwoSextets(b0: Byte, v0: Sextet, v1: Sextet, n: int)
    requires n == (b0 as int) * 16 == (v0 as int) * 64 + v1
    ensures LowBits(b0, 8) + LowBits(0, 4) == LowBits(v0, 6) + LowBits(v1, 6)
  {
    PowersOfTwo();
    JoinTwo(b0, 8, 0, 4, 16, n, 12);
    JoinTwo(v0, 6, v1, 6, 64, n, 12);
  }

  lemma TwoBytesThreeSextets(b0: Byte, b1: Byte, v0: Sextet, v1: Sextet, v2: Sextet, m: int, n: int)
    requires m == (b0 as int) * 256 + b1 && n == m * 4 == (v0 as int) * 4096 + (v1 as int) * 64 + v2
    ensures LowBits(b0, 8) + LowBits(b1, 8) + LowBits(0, 2) == LowBits(v0, 6) + LowBits(v1, 6) + LowBits(v2, 6)
  {
    PowersOfTwo();
    JoinTwo(b0, 8, b1, 8, 256, m, 16);
    JoinTwo(m, 16, 0, 2, 4, n, 18);
    JoinThree(v0, v1, v2, 6, 64, (v0 as int) * 64 + v1, n, 18);
  }

  // ----- The encoder -----

  /** `six` are the six bits of `v`. */
  predicate Spells(six: Bits, v: Sextet) {
    |six| == 6 && Value(six) == v
  }

  lemma SextetSpelled(v: Sextet) returns (six: Bits)
    ensures Spells(six, v) && six == LowBits(v, 6)
  {
    PowersOfTwo();
    ValueOfLowBits(v, 6);
    six := LowBits(v, 6);
  }

  lemma GroupAtFront(six: Bits, v: Sextet, rest: Bits)
    requires Spells(six, v)
    ensures Groups(six + rest) == [v] + Groups(rest)
  {
    assert (six + rest)[..6] == six;
    assert (six + rest)[6..] == rest;
  }

  lemma LastGroup(few: Bits, six: Bits, v: Sextet)
    requires 0 < |few| < 6 && Spells(six, v) && few + LowBits(0, 6 - |few|) == six
    ensures Groups(few) == [v]
  {
  }

  lemma FourGroups(bits: Bits, s0: Bits, s1: Bits, s2: Bits, s3: Bits, v0: Sextet, v1: Sextet, v2: Sextet, v3: Sextet, rest: Bits)
    requires Spells(s0, v0) && Spells(s1, v1) && Spells(s2, v2) && Spells(s3, v3) && bits == s0 + s1 + s2 + s3
    ensures Letters(Groups(bits + rest)) == [Letter(v0), Letter(v1), Letter(v2), Letter(v3)] + Letters(Groups(rest))
  {
    assert bits + rest == s0 + (s1 + (s2 + (s3 + rest)));
    GroupAtFront(s0, v0, s1 + (s2 + (s3 + rest)));
    GroupAtFront(s1, v1, s2 + (s3 + rest));
    GroupAtFront(s2, v2, s3 + rest);
    GroupAtFront(s3, v3, rest);
    FrontLetter(v0, Groups(s1 + (s2 + (s3 + rest))));
    FrontLetter(v1, Groups(s2 + (s3 + rest)));
    FrontLetter(v2, Groups(s3 + rest));
    FrontLetter(v3, Groups(rest));
  }

  lemma FrontLetter(v: Sextet, rest: seq<Sextet>)
    ensures Letters([v] + rest) == [Letter(v)] + Letters(rest)
  {
  }

  lemma TwoGroups(bits: Bits, zeros: Bits, s0: Bits, s1: Bits, v0: Sextet, v1: Sextet)
    requires |bits| == 8 && zeros == LowBits(0, 4) && Spells(s0, v0) && Spells(s1, v1) && bits + zeros == s0 + s1
    ensures Letters(Groups(bits)) == [Letter(v0), Letter(v1)]
  {
    assert bits == s0 + bits[6..] by {
      assert (bits + zeros)[..6] == s0;
    }
    assert bits[6..] + zeros == s1 by {
      assert (bits + zeros)[6..] == s1;
    }
    GroupAtFront(s0, v0, bits[6..]);
    LastGroup(bits[6..], s1, v1);
    FrontLetter(v0, [v1]);
    FrontLetter(v1, []);
  }

  lemma ThreeGroups(bits: Bits, zeros: Bits, s0: Bits, s1: Bits, s2: Bits, v0: Sextet, v1: Sextet, v2: Sextet)
    requires |bits| == 16 && zeros == LowBits(0, 2) && Spells(s0, v0) && Spells(s1, v1) && Spells(s2, v2)
    requires bits + zeros == s0 + s1 + s2
    ensures Letters(Groups(bits)) == [Letter(v0), Letter(v1), Letter(v2)]
  {
    assert bits == s0 + (s1 + bits[12..]) by {
      assert (bits + zeros)[..6] == s0 && (bits + zeros)[6..12] == s1;
      assert bits[..6] == (bits + zeros)[..6] && bits[6..12] == (bits + zeros)[6..12];
      assert bits == bits[..6] + (bits[6..12] + bits[12..]);
    }
    assert bits[12..] + zeros == s2 by {
      assert (bits + zeros)[12..] == s2;
    }
    GroupAtFront(s0, v0, s1 + bits[12..]);
    GroupAtFront(s1, v1, bits[12..]);
    LastGroup(bits[12..], s2, v2);
    FrontLetter(v0, [v1] + [v2]);
    FrontLetter(v1, [v2]);
    FrontLetter(v2, []);
  }

  lemma BitsOfFront(b: Byte, rest: ByteString)
    ensures BitsOf([b] + rest) == LowBits(b, 8) + BitsOf(rest)
  {
    assert ([b] + rest)[1..] == rest;
  }

  lemma BitsOfThree(b0: Byte, b1: Byte, b2: Byte, rest: ByteString)
    ensures BitsOf([b0] + ([b1] + ([b2] + rest))) == LowBits(b0, 8) + LowBits(b1, 8) + LowBits(b2, 8) + BitsOf(rest)
  {
    BitsOfFront(b2, rest);
    BitsOfFront(b1, [b2] + rest);
    BitsOfFront(b0, [b1] + ([b2] + rest));
  }

  /** The first three bytes, as the bits of four sextets. */
  lemma FrontBits(bytes: ByteString, v0: Sextet, v1: Sextet, v2: Sextet, v3: Sextet, n: int)
    returns (s0: Bits, s1: Bits, s2: Bits, s3: Bits)
    requires |bytes| >= 3
    requires n == (bytes[0] as int) * 65536 + (bytes[1] as int) * 256 + bytes[2]
    requires n == (v0 as int) * 262144 + (v1 as int) * 4096 + (v2 as int) * 64 + v3
    ensures Spells(s0, v0) && Spells(s1, v1) && Spells(s2, v2) && Spells(s3, v3)
    ensures BitsOf(bytes) == (s0 + s1 + s2 + s3) + BitsOf(bytes[3..])
  {
    BitsOfThree(bytes[0], bytes[1], bytes[2], bytes[3..]);
    assert bytes == [bytes[0]] + ([bytes[1]] + ([bytes[2]] + bytes[3..]));
    ThreeBytesFourSextets(bytes[0], bytes[1], bytes[2], v0, v1, v2, v3, n);
    s0 := SextetSpelled(v0);
    s1 := SextetSpelled(v1);
    s2 := SextetSpelled(v2);
    s3 := SextetSpelled(v3);
  }

  lemma ThreeByteLetters(bytes: ByteString, v0: Sextet, v1: Sextet, v2: Sextet, v3: Sextet, n: int)
    requires |bytes| >= 3
    requires n == (bytes[0] as int) * 65536 + (bytes[1] as int) * 256 + bytes[2]
    requires n == (v0 as int) * 262144 + (v1 as int) * 4096 + (v2 as int) * 64 + v3
    ensures Letters(Groups(BitsOf(bytes))) == [Letter(v0), Letter(v1), Letter(v2), Letter(v3)] + Letters(Groups(BitsOf(bytes[3..])))
  {
    var s0, s1, s2, s3 := FrontBits(bytes, v0, v1, v2, v3, n);
    FourGroups(s0 + s1 + s2 + s3, s0, s1, s2, s3, v0, v1, v2, v3, BitsOf(bytes[3..]));
  }

  lemma PaddingAfterFour(head: string, tail: string)
    requires |head| == 4
    ensures (head + tail) + Padding(|head + tail|) == head + (tail + Padding(|tail|))
  {
  }

  lemma ThreeBytes(bytes: ByteString, v0: Sextet, v1: Sextet, v2: Sextet, v3: Sextet, n: int)
    requires |bytes| >= 3
    requires n == (bytes[0] as int) * 65536 + (bytes[1] as int) * 256 + bytes[2]
    requires n == (v0 as int) * 262144 + (v1 as int) * 4096 + (v2 as int) * 64 + v3
    ensures Encoding(bytes) == [Letter(v0), Letter(v1), Letter(v2), Letter(v3)] + Encoding(bytes[3..])
  {
    ThreeByteLetters(bytes, v0, v1, v2, v3, n);
    PaddingAfterFour([Letter(v0), Letter(v1), Letter(v2), Letter(v3)], Letters(Groups(BitsOf(bytes[3..]))));
  }

  lemma OneByte(b0: Byte, v0: Sextet, v1: Sextet)
    requires (b0 as int) * 16 == (v0 as int) * 64 + v1
    ensures Encoding([b0]) == [Letter(v0), Letter(v1)] + "=="
  {
    OneByteTwoSextets(b0, v0, v1, (b0 as int) * 16);
    var s0 := SextetSpelled(v0);
    var s1 := SextetSpelled(v1);
    BitsOfFront(b0, []);
    assert [b0] + [] == [b0];
    TwoGroups(BitsOf([b0]), LowBits(0, 4), s0, s1, v0, v1);
  }

  lemma TwoBytes(b0: Byte, b1: Byte, v0: Sextet, v1: Sextet, v2: Sextet)
    requires (b0 as int) * 1024 + (b1 as int) * 4 == (v0 as int) * 4096 + (v1 as int) * 64 + v2
    ensures Encoding([b0, b1]) == [Letter(v0), Letter(v1), Letter(v2)] + "="
  {
    var m: int := (b0 as int) * 256 + b1;
    TwoBytesThreeSextets(b0, b1, v0, v1, v2, m, m * 4);
    var s0 := SextetSpelled(v0);
    var s1 := SextetSpelled(v1);
    var s2 := SextetSpelled(v2);
    BitsOfFront(b1, []);
    BitsOfFront(b0, [b1]);
    assert [b1] + [] == [b1] && [b0] + [b1] == [b0, b1];
    ThreeGroups(BitsOf([b0, b1]), LowBits(0, 2), s0, s1, s2, v0, v1, v2);
  }

  /** The four sextets the shifts and masks of the encoder cut out of 24 bits. */
  lemma SextetsOf(n: int)
    requires 0 <= n < 16777216
    ensures n == n / 262144 % 64 * 262144 + n / 4096 % 64 * 4096 + n / 64 % 64 * 64 + n % 64
  {
    assert n / 64 / 64 == n / 4096 && n / 4096 / 64 == n / 262144;
  }

  /** The four characters the shifts and masks of the encoder cut out of 24 bits. */
  function Quad(n: int): (s: string)
    ensures |s| == 4
  {
    [Letter(n / 262144 % 64), Letter(n / 4096 % 64), Letter(n / 64 % 64), Letter(n % 64)]
  }

  lemma EncodeThree(bytes: ByteString, n: int)
    requires |bytes| >= 3 && n == (bytes[0] as int) * 65536 + (bytes[1] as int) * 256 + bytes[2]
    ensures Encoding(bytes) == Quad(n) + Encoding(bytes[3..])
  {
    SextetsOf(n);
    ThreeBytes(bytes, n / 262144 % 64, n / 4096 % 64, n / 64 % 64, n % 64, n);
  }

  lemma EncodeOne(b0: Byte, n: int)
    requires n == (b0 as int) * 65536
    ensures Encoding([b0]) == Quad(n)[..2] + "=="
  {
    SextetsOf(n);
    OneByte(b0, n / 262144 % 64, n / 4096 % 64);
  }

  lemma EncodeTwo(b0: Byte, b1: Byte, n: int)
    requires n == (b0 as int) * 65536 + (b1 as int) * 256
    ensures Encoding([b0, b1]) == Quad(n)[..3] + "="
  {
    SextetsOf(n);
    TwoBytes(b0, b1, n / 262144 % 64, n / 4096 % 64, n / 64 % 64);
  }

  method BytesToBase64(bytes: ByteString) returns (result: string)
    ensures result == Encoding(bytes)
  {
    result := "";
    var i := 0;
    while i + 3 <= |bytes|
      invariant 0 <= i <= |bytes|
      invariant result + Encoding(bytes[i..]) == Encoding(bytes)
    {
      var n: int := (bytes[i] as int) * 65536 + (bytes[i + 1] as int) * 256 + bytes[i + 2];
      EncodeThree(bytes[i..], n);
      assert bytes[i..][3..] == bytes[i + 3..];
      result := result + Quad(n);
      i := i + 3;
    }
    var remaining := |bytes| - i;
    if remaining == 1 {
      assert bytes[i..] == [bytes[i]];
      var n: int := (bytes[i] as int) * 65536;
      EncodeOne(bytes[i], n);
      result := result + (Quad(n)[..2] + "==");
    } else if remaining == 2 {
      assert bytes[i..] == [bytes[i], bytes[i + 1]];
      var n: int := (bytes[i] as int) * 65536 + (bytes[i + 1] as int) * 256;
      EncodeTwo(bytes[i], bytes[i + 1], n);
      result := result + (Quad(n)[..3] + "=");
    }
  }

  // ----- The decoder -----

  function WithoutTrailingPads(s: string): string {
    if s != "" && s[|s| - 1] == '=' then WithoutTrailingPads(s[..|s| - 1]) else s
  }

  /** The place of a character in the alphabet. */
  function PlaceOf(c: char): Option<Sextet> {
    if 'A' <= c <= 'Z' then Some((c - 'A') as int)
    else if 'a' <= c <= 'z' then Some((c - 'a') as int + 26)
    else if '0' <= c <= '9' then Some((c - '0') as int + 52)
    else if c == '+' then Some(62)
    else if c == '/' then Some(63)
    else None
  }

  /** The bits of the characters of the alphabet; other characters count for nothing. */
  function BitsOfText(s: string): Bits {
    if s == "" then []
    else BitsOfText(s[..|s| - 1]) + match PlaceOf(s[|s| - 1]) case None => [] case Some(v) => LowBits(v, 6)
  }

  function ByteOf(bits: Bits): Byte
    requires |bits| == 8
  {
    ValueIsBounded(bits);
    PowersOfTwo();
    Value(bits)
  }

  /** The whole bytes in a string of bits; what is left at the end is dropped. */
  function WholeBytes(bits: Bits): (bytes: ByteString)
    ensures |bytes| == |bits| / 8
  {
    if |bits| < 8 then [] else [ByteOf(bits[..8])] + WholeBytes(bits[8..])
  }

  function Decoding(s: string): ByteString {
    WholeBytes(BitsOfText(WithoutTrailingPads(s)))
  }

  /** A signed 32-bit integer. */
  function Wrapped(n: int): int {
    (n + 0x8000_0000) % 0x1_0000_0000 - 0x8000_0000
  }

  lemma {:induction false} WholeBytesJoin(a: Bits, b: Bits)
    requires |a| % 8 == 0
    ensures WholeBytes(a + b) == WholeBytes(a) + WholeBytes(b)
    decreases |a|
  {
    if a == [] {
      assert a + b == b;
    } else {
      assert (a + b)[..8] == a[..8] && (a + b)[8..] == a[8..] + b;
      WholeBytesJoin(a[8..], b);
    }
  }

  /** Of the buffer only the low bits matter, so its wrap-around is never seen. */
  lemma BufferStep(buffer: int, v: Sextet, m: int)
    requires m == 1 || m == 4 || m == 16 || m == 64
    ensures (Wrapped(buffer * 64) + v) % (m * 64) == buffer % m * 64 + v
  {
    var q := (buffer * 64 + 0x8000_0000) / 0x1_0000_0000;
    var n := buffer * 64 - q * 0x1_0000_0000;
    assert Wrapped(buffer * 64) == n;
    if m == 1 {
      assert (n + v) % 64 == v by { Remainder(n + v, buffer - q * 0x400_0000, 64, v); }
    } else if m == 4 {
      Remainder(n + v, buffer / 4 - q * 0x100_0000, 256, buffer % 4 * 64 + v);
    } else if m == 16 {
      Remainder(n + v, buffer / 16 - q * 0x40_0000, 1024, buffer % 16 * 64 + v);
    } else {
      Remainder(n + v, buffer / 64 - q * 0x10_0000, 4096, buffer % 64 * 64 + v);
    }
  }

  lemma Remainder(n: int, q: int, m: int, r: int)
    requires 0 <= r < m && n == q * m + r
    ensures n % m == r
  {
    NoOtherMultiple(q - n / m, m, n % m - r);
  }

  lemma NoOtherMultiple(d: int, m: int, s: int)
    requires d * m == s && -m < s < m
    ensures d == 0 && s == 0
  {
    assert d >= 1 ==> d * m >= m;
    assert d <= -1 ==> d * m <= -m;
  }

  /** Six bits of a character arrive behind the bits left over. */
  lemma LeftoverValue(left: Bits, v: Sextet)
    ensures Value(left + LowBits(v, 6)) == Value(left) * 64 + v
  {
    PowersOfTwo();
    ValueOfJoin(left, LowBits(v, 6));
    ValueOfLowBits(v, 6);
  }

  lemma CutBy4(next: int, x: int, y: int)
    requires 0 <= x < 256 && 0 <= y < 4 && next % 1024 == x * 4 + y
    ensures next / 4 % 256 == x && next % 4 == y
  {
    var q := next / 1024;
    assert next == (q * 256 + x) * 4 + y;
    assert next / 4 == q * 256 + x;
  }

  lemma CutBy16(next: int, x: int, y: int)
    requires 0 <= x < 256 && 0 <= y < 16 && next % 4096 == x * 16 + y
    ensures next / 16 % 256 == x && next % 16 == y
  {
    var q := next / 4096;
    assert next == (q * 256 + x) * 16 + y;
    assert next / 16 == q * 256 + x;
  }

  /** The byte at the front of the leftover bits, and what then remains. */
  lemma FrontByte(left: Bits, next: int, m: int)
    requires 8 <= |left| <= 12 && m == Pow2(|left| - 8) && (m == 1 || m == 4 || m == 16)
    requires next % (m * 256) == Value(left)
    ensures next / m % 256 == ByteOf(left[..8]) && next % m == Value(left[8..])
  {
    PowersOfTwo();
    assert left == left[..8] + left[8..];
    ValueOfJoin(left[..8], left[8..]);
    ValueIsBounded(left[..8]);
    ValueIsBounded(left[8..]);
    if m == 4 {
      CutBy4(next, Value(left[..8]), Value(left[8..]));
    } else if m == 16 {
      CutBy16(next, Value(left[..8]), Value(left[8..]));
    }
  }

  lemma BytesGrow(bits: Bits, out: ByteString, more: Bits)
    requires out == WholeBytes(bits) && 8 * |out| <= |bits|
    ensures WholeBytes(bits + more) == out + WholeBytes(bits[8 * |out|..] + more)
  {
    var whole, left := bits[..8 * |out|], bits[8 * |out|..];
    assert bits == whole + left && whole + left + more == whole + (left + more);
    WholeBytesJoin(whole, left);
    WholeBytesJoin(whole, left + more);
  }

  /** What the loop knows: the bytes so far, and the bits it still holds in the low end of its buffer. */
  ghost predicate Holds(bits: Bits, out: ByteString, buffer: int, collected: nat) {
    && (collected == 0 || collected == 2 || collected == 4 || collected == 6)
    && |bits| == 8 * |out| + collected && out == WholeBytes(bits)
    && buffer % Pow2(collected) == Value(bits[8 * |out|..])
  }

  lemma StepWithoutByte(bits: Bits, out: ByteString, buffer: int, v: Sextet)
    requires Holds(bits, out, buffer, 0)
    ensures Holds(bits + LowBits(v, 6), out, Wrapped(buffer * 64) + v, 6)
  {
    PowersOfTwo();
    BufferStep(buffer, v, 1);
    BytesGrow(bits, out, LowBits(v, 6));
    assert bits[8 * |out|..] == [];
    assert [] + LowBits(v, 6) == LowBits(v, 6) && (bits + LowBits(v, 6))[8 * |out|..] == LowBits(v, 6);
    ValueOfLowBits(v, 6);
  }

  lemma StepWithByte(bits: Bits, out: ByteString, buffer: int, collected: nat, v: Sextet, m: int)
    requires Holds(bits, out, buffer, collected) && collected >= 2 && m == Pow2(collected - 2)
    ensures var next := Wrapped(buffer * 64) + v;
            Holds(bits + LowBits(v, 6), out + [next / m % 256], next, collected - 2)
  {
    PowersOfTwo();
    var next, held := Wrapped(buffer * 64) + v, bits[8 * |out|..];
    var left := held + LowBits(v, 6);
    BufferStep(buffer, v, m * 4);
    LeftoverValue(held, v);
    FrontByte(left, next, m);
    BytesGrow(bits, out, LowBits(v, 6));
    assert WholeBytes(left) == [ByteOf(left[..8])] + WholeBytes(left[8..]) && WholeBytes(left[8..]) == [];
    assert (bits + LowBits(v, 6))[8 * |out| + 8..] == left[8..];
  }

  lemma Step(bits: Bits, out: ByteString, buffer: int, collected: nat, v: Sextet)
    requires Holds(bits, out, buffer, collected)
    ensures var next := Wrapped(buffer * 64) + v;
            if collected == 0 then Holds(bits + LowBits(v, 6), out, next, 6)
            else Holds(bits + LowBits(v, 6), out + [next / Pow2(collected - 2) % 256], next, collected - 2)
  {
    if collected == 0 {
      StepWithoutByte(bits, out, buffer, v);
    } else {
      StepWithByte(bits, out, buffer, collected, v, Pow2(collected - 2));
    }
  }

  method StripPads(s: string) returns (clean: string)
    ensures clean == WithoutTrailingPads(s)
  {
    clean := s;
    while clean != "" && clean[|clean| - 1] == '='
      invariant WithoutTrailingPads(clean) == WithoutTrailingPads(s)
      decreases |clean|
    {
      clean := clean[..|clean| - 1];
    }
  }

  /** The loop's variables. */
  datatype Decoder = Decoder(out: ByteString, buffer: int, collected: nat)

  function Feed(d: Decoder, c: char): Decoder {
    match PlaceOf(c)
    case None => d
    case Some(v) =>
      var next := Wrapped(d.buffer * 64) + v;
      if d.collected + 6 < 8 then Decoder(d.out, next, d.collected + 6)
      else Decoder(d.out + [next / Pow2(d.collected - 2) % 256], next, d.collected - 2)
  }

  function Fed(s: string): Decoder {
    if s == "" then Decoder([], 0, 0) else Feed(Fed(s[..|s| - 1]), s[|s| - 1])
  }

  ghost predicate DecoderHolds(bits: Bits, d: Decoder) {
    Holds(bits, d.out, d.buffer, d.collected)
  }

  lemma FeedHolds(bits: Bits, d: Decoder, c: char)
    requires DecoderHolds(bits, d)
    ensures PlaceOf(c).None? ==> DecoderHolds(bits, Feed(d, c))
    ensures PlaceOf(c).Some? ==> DecoderHolds(bits + LowBits(PlaceOf(c).value, 6), Feed(d, c))
  {
    if PlaceOf(c).Some? {
      Step(bits, d.out, d.buffer, d.collected, PlaceOf(c).value);
    }
  }

  lemma TextSnoc(init: string, last: char)
    ensures PlaceOf(last).None? ==> BitsOfText(init + [last]) == BitsOfText(init)
    ensures PlaceOf(last).Some? ==> BitsOfText(init + [last]) == BitsOfText(init) + LowBits(PlaceOf(last).value, 6)
    ensures Fed(init + [last]) == Feed(Fed(init), last)
  {
    assert (init + [last])[..|init|] == init;
  }

  /** What the loop has after any text: the whole bytes so far, and the bits left over in its buffer. */
  lemma {:induction false} FedHolds(s: string)
    ensures DecoderHolds(BitsOfText(s), Fed(s))
  {
    if s != "" {
      var init, last := s[..|s| - 1], s[|s| - 1];
      FedHolds(init);
      assert s == init + [last];
      TextSnoc(init, last);
      FeedHolds(BitsOfText(init), Fed(init), last);
    }
  }

  method Base64ToBytes(s: string) returns (out: ByteString)
    ensures out == Decoding(s)
  {
    var clean := StripPads(s);
    out := [];
    var buffer := 0;
    var collected: nat := 0;
    for i := 0 to |clean|
      invariant Decoder(out, buffer, collected) == Fed(clean[..i])
    {
      assert clean[..i + 1][..i] == clean[..i];
      var place := PlaceOf(clean[i]);
      if place.None? {
        continue;
      }
      buffer := Wrapped(buffer * 64) + place.value;
      collected := collected + 6;
      if collected >= 8 {
        collected := collected - 8;
        out := out + [buffer / Pow2(collected) % 256];
      }
    }
    assert clean[..|clean|] == clean;
    FedHolds(clean);
  }

  // ----- Round trip -----

  lemma PlaceOfLetter(v: Sextet)
    ensures PlaceOf(Letter(v)) == Some(v)
  {
  }

  lemma LettersTake(values: seq<Sextet>)
    requires values != []
    ensures Letters(values)[..|values| - 1] == Letters(values[..|values| - 1])
    ensures Letters(values)[|values| - 1] == Letter(values[|values| - 1])
  {
  }

  lemma OnePadStripped(s: string)
    ensures WithoutTrailingPads(s + "=") == WithoutTrailingPads(s)
  {
    assert (s + "=")[..|s|] == s;
  }

  lemma PadsAreStripped(values: seq<Sextet>)
    ensures WithoutTrailingPads(Letters(values) + Padding(|values|)) == Letters(values)
  {
    var letters := Letters(values);
    if values != [] {
      LettersTake(values);
      PlaceOfLetter(values[|values| - 1]);
    }
    assert letters + "" == letters && letters + "==" == (letters + "=") + "=";
    OnePadStripped(letters);
    OnePadStripped(letters + "=");
  }

  function SextetBits(values: seq<Sextet>): Bits {
    if values == [] then [] else SextetBits(values[..|values| - 1]) + LowBits(values[|values| - 1], 6)
  }

  lemma {:induction false} LettersSpell(values: seq<Sextet>)
    ensures BitsOfText(Letters(values)) == SextetBits(values)
  {
    if values != [] {
      LettersTake(values);
      PlaceOfLetter(values[|values| - 1]);
      LettersSpell(values[..|values| - 1]);
    }
  }

  lemma Associative(a: Bits, b: Bits, c: Bits)
    ensures (a + b) + c == a + (b + c)
  {
  }

  lemma SextetBitsSnoc(init: seq<Sextet>, last: Sextet)
    ensures SextetBits(init + [last]) == SextetBits(init) + LowBits(last, 6)
  {
    assert (init + [last])[..|init|] == init;
  }

  lemma {:induction false} SextetBitsJoin(v: Sextet, rest: seq<Sextet>)
    ensures SextetBits([v] + rest) == LowBits(v, 6) + SextetBits(rest)
    decreases |rest|
  {
    if rest == [] {
      assert [v] + rest == [] + [v];
      SextetBitsSnoc([], v);
    } else {
      var init, last := rest[..|rest| - 1], rest[|rest| - 1];
      assert rest == init + [last] && [v] + rest == ([v] + init) + [last];
      SextetBitsSnoc([v] + init, last);
      SextetBitsSnoc(init, last);
      SextetBitsJoin(v, init);
      Associative(LowBits(v, 6), SextetBits(init), LowBits(last, 6));
    }
  }

  lemma {:induction false} BitsOfValue(bits: Bits)
    ensures LowBits(Value(bits), |bits|) == bits
  {
    if bits != [] {
      BitsOfValue(bits[..|bits| - 1]);
      assert Value(bits) / 2 == Value(bits[..|bits| - 1]);
    }
  }

  lemma LastGroupHolds(bits: Bits, fill: Bits)
    requires 0 < |bits| < 6 && fill == LowBits(0, 6 - |bits|)
    ensures SextetBits(Groups(bits)) == bits + fill
  {
    BitsOfValue(bits + fill);
    SextetBitsJoin(SextetOf(bits + fill), []);
    assert [SextetOf(bits + fill)] + [] == [SextetOf(bits + fill)];
  }

  lemma FirstGroupHolds(bits: Bits)
    requires |bits| >= 6
    ensures SextetBits(Groups(bits)) == bits[..6] + SextetBits(Groups(bits[6..]))
  {
    BitsOfValue(bits[..6]);
    SextetBitsJoin(SextetOf(bits[..6]), Groups(bits[6..]));
  }

  /** The groups hold the bits, followed by at most five zero bits. */
  lemma {:induction false} GroupsHoldTheBits(bits: Bits) returns (fill: Bits)
    ensures SextetBits(Groups(bits)) == bits + fill && |fill| < 6
    decreases |bits|
  {
    if bits == [] {
      fill := [];
    } else if |bits| < 6 {
      fill := LowBits(0, 6 - |bits|);
      LastGroupHolds(bits, fill);
    } else {
      fill := GroupsHoldTheBits(bits[6..]);
      FirstGroupHolds(bits);
      Associative(bits[..6], bits[6..], fill);
      assert bits[..6] + bits[6..] == bits;
    }
  }

  lemma {:induction false} WholeBytesBack(bytes: ByteString, fill: Bits)
    requires |fill| < 8
    ensures WholeBytes(BitsOf(bytes) + fill) == bytes
  {
    if bytes == [] {
      assert [] + fill == fill;
    } else {
      var first := LowBits(bytes[0], 8);
      var all := BitsOf(bytes) + fill;
      PowersOfTwo();
      ValueOfLowBits(bytes[0], 8);
      assert all[..8] == first && all[8..] == BitsOf(bytes[1..]) + fill;
      WholeBytesBack(bytes[1..], fill);
    }
  }

  /** Decoding undoes encoding, for every string of bytes. */
  lemma RoundTrip(bytes: ByteString)
    ensures Decoding(Encoding(bytes)) == bytes
  {
    var values := Groups(BitsOf(bytes));
    PadsAreStripped(values);
    LettersSpell(values);
    var fill := GroupsHoldTheBits(BitsOf(bytes));
    WholeBytesBack(bytes, fill);
  }

  /** So distinct strings of bytes have distinct encodings. */
  lemma EncodingIsInjective(a: ByteString, b: ByteString)
    requires Encoding(a) == Encoding(b)
    ensures a == b
  {
    RoundTrip(a);
    RoundTrip(b);
  }

  /** Exactly the letters have a place. */
  lemma OnlyLettersHavePlaces(c: char)
    ensures PlaceOf(c).Some? <==> exists v: Sextet :: Letter(v) == c
    ensures PlaceOf(c).Some? ==> Letter(PlaceOf(c).value) == c
  {
    if v: Sextet :| Letter(v) == c {
      PlaceOfLetter(v);
    }
    if PlaceOf(c).Some? {
      var v: Sextet := PlaceOf(c).value;
      assert c as int == Letter(v) as int;
      assert Letter(v) == c;
    }
  }

  lemma {:induction false} ForeignBits(s: string, c: char, t: string)
    requires forall v: Sextet :: Letter(v) != c
    ensures BitsOfText(s + [c] + t) == BitsOfText(s + t)
    decreases |t|
  {
    OnlyLettersHavePlaces(c);
    if t == "" {
      assert (s + [c] + t)[..|s|] == s && s + t == s;
    } else {
      var init, last := t[..|t| - 1], t[|t| - 1];
      ForeignBits(s, c, init);
      assert (s + [c] + t)[..|s + [c] + t| - 1] == s + [c] + init && (s + t)[..|s + t| - 1] == s + init;
    }
  }

  /** The decoder passes over padding at the end, and anywhere over characters that are no letters. */
  lemma ForeignIsSkipped(s: string, c: char, t: string)
    requires forall v: Sextet :: Letter(v) != c
    ensures Decoding(s + "=") == Decoding(s)
    ensures t != "" && t[|t| - 1] != '=' ==> Decoding(s + [c] + t) == Decoding(s + t)
  {
    OnePadStripped(s);
    ForeignBits(s, c, t);
  }

  /** The alphabet runs from A to Z, a to z, 0 to 9, and ends with + and /. */
  lemma Alphabet(v: Sextet)
    ensures Letter(0) == 'A' && Letter(26) == 'a' && Letter(52) == '0' && Letter(62) == '+' && Letter(63) == '/'
    ensures v < 63 && v !in {25, 51, 61, 62} ==> Letter(v + 1) as int == Letter(v) as int + 1
  {
  }

  lemma EncodeFoo(f: Byte, o: Byte, rest: ByteString)
    requires f == 0x66 && o == 0x6f
    ensures Encoding([f, o, o] + rest) == "Zm9v" + Encoding(rest)
  {
    Quads();
    EncodeThree([f, o, o] + rest, 0x666f6f);
    assert ([f, o, o] + rest)[3..] == rest;
  }

  lemma EncodeBar(b: Byte, a: Byte, r: Byte)
    requires b == 0x62 && a == 0x61 && r == 0x72
    ensures Encoding([b]) == "Yg==" && Encoding([b, a]) == "YmE=" && Encoding([b, a, r]) == "YmFy"
  {
    Quads();
    EncodeOne(b, 0x620000);
    EncodeTwo(b, a, 0x626100);
    EncodeThree([b, a, r], 0x626172);
  }

  lemma EncodeFo(f: Byte, o: Byte)
    requires f == 0x66 && o == 0x6f
    ensures Encoding([f]) == "Zg==" && Encoding([f, o]) == "Zm8="
  {
    Quads();
    EncodeOne(f, 0x660000);
    EncodeTwo(f, o, 0x666f00);
  }

  /** The test vectors of section 10 of RFC 4648: the prefixes of "foobar". */
  lemma TestVectors(f: Byte, o: Byte, b: Byte, a: Byte, r: Byte)
    requires f == 0x66 && o == 0x6f && b == 0x62 && a == 0x61 && r == 0x72
    ensures Encoding([f]) == "Zg==" && Encoding([f, o]) == "Zm8=" && Encoding([f, o, o] + []) == "Zm9v" + ""
    ensures Encoding([f, o, o] + [b]) == "Zm9v" + "Yg==" && Encoding([f, o, o] + [b, a]) == "Zm9v" + "YmE="
    ensures Encoding([f, o, o] + [b, a, r]) == "Zm9v" + "YmFy"
  {
    EncodeFo(f, o);
    EncodeBar(b, a, r);
    EncodeFoo(f, o, []);
    EncodeFoo(f, o, [b]);
    EncodeFoo(f, o, [b, a]);
    EncodeFoo(f, o, [b, a, r]);
  }

  lemma Quads()
    ensures Quad(0x666f6f) == "Zm9v" && Quad(0x626172) == "YmFy" && Quad(0x660000) == "ZgAA"
    ensures Quad(0x620000) == "YgAA" && Quad(0x666f00) == "Zm8A" && Quad(0x626100) == "YmEA"
  {
  }
}
