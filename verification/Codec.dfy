/** Base64 (section 4 of RFC 4648, padded, strict about trailing bits) and big-endian integers. */
module Codec {
  import opened Protocol

  type Sextet = v: int | 0 <= v < 64

  function EncodeSextet(v: Sextet): char {
    if v < 26 then 'A' + v as char
    else if v < 52 then 'a' + (v - 26) as char
    else if v < 62 then '0' + (v - 52) as char
    else if v == 62 then '+'
    else '/'
  }

  function DecodeSextet(c: char): Option<Sextet> {
    if 'A' <= c <= 'Z' then Some(c as int - 'A' as int)
    else if 'a' <= c <= 'z' then Some(c as int - 'a' as int + 26)
    else if '0' <= c <= '9' then Some(c as int - '0' as int + 52)
    else if c == '+' then Some(62)
    else if c == '/' then Some(63)
    else None
  }

  lemma SextetRoundTrip(c: char, v: Sextet)
    ensures DecodeSextet(c) == Some(v) <==> c == EncodeSextet(v)
  {
  }

  /** Table 1 of RFC 4648, in ASCII codes. */
  lemma SextetsAreTableOne(v: Sextet)
    ensures EncodeSextet(v) as int
         == if v < 26 then 65 + v else if v < 52 then 97 + v - 26 else if v < 62 then 48 + v - 52 else if v == 62 then 43 else 47
  {
  }

  // Three bytes a, b, c are the same 24 bits as four sextets p, q, r, s.
  function SextetP(a: Byte): Sextet { a / 4 }
  function SextetQ(a: Byte, b: Byte): Sextet { a % 4 * 16 + b / 16 }
  function SextetR(b: Byte, c: Byte): Sextet { b % 16 * 4 + c / 64 }
  function SextetS(c: Byte): Sextet { c % 64 }

  function ByteA(p: Sextet, q: Sextet): Byte { p * 4 + q / 16 }
  function ByteB(q: Sextet, r: Sextet): Byte { q % 16 * 16 + r / 4 }
  function ByteC(r: Sextet, s: Sextet): Byte { r % 4 * 64 + s }

  lemma SplitAt16(high: nat, low: nat)
    requires low < 16
    ensures (high * 16 + low) / 16 == high && (high * 16 + low) % 16 == low
  {
  }

  lemma SplitAt4(high: nat, low: nat)
    requires low < 4
    ensures (high * 4 + low) / 4 == high && (high * 4 + low) % 4 == low
  {
  }

  lemma RegroupBytes(a: Byte, b: Byte, c: Byte)
    ensures ByteA(SextetP(a), SextetQ(a, b)) == a
    ensures ByteB(SextetQ(a, b), SextetR(b, c)) == b
    ensures ByteC(SextetR(b, c), SextetS(c)) == c
    ensures SextetQ(a, 0) % 16 == 0 && SextetR(b, 0) % 4 == 0
  {
    SplitAt16(a % 4, b / 16);
    SplitAt4(b % 16, c / 64);
    SplitAt16(a % 4, 0);
    SplitAt4(b % 16, 0);
  }

  lemma RegroupSextets(p: Sextet, q: Sextet, r: Sextet, s: Sextet)
    ensures SextetP(ByteA(p, q)) == p
    ensures SextetQ(ByteA(p, q), ByteB(q, r)) == q
    ensures SextetR(ByteB(q, r), ByteC(r, s)) == r
    ensures SextetS(ByteC(r, s)) == s
    ensures q % 16 == 0 ==> SextetQ(ByteA(p, q), 0) == q
    ensures r % 4 == 0 ==> SextetR(ByteB(q, r), 0) == r
  {
  }

  function EncodeBlock(a: Byte, b: Byte, c: Byte): string {
    [EncodeSextet(SextetP(a)), EncodeSextet(SextetQ(a, b)), EncodeSextet(SextetR(b, c)), EncodeSextet(SextetS(c))]
  }

  /** One or two bytes left over are completed with zero bits and padded. */
  function EncodeLast(bytes: seq<Byte>): string
    requires 1 <= |bytes| <= 2
  {
    if |bytes| == 1 then [EncodeSextet(SextetP(bytes[0])), EncodeSextet(SextetQ(bytes[0], 0)), '=', '=']
    else [EncodeSextet(SextetP(bytes[0])), EncodeSextet(SextetQ(bytes[0], bytes[1])),
          EncodeSextet(SextetR(bytes[1], 0)), '=']
  }

  function Base64Encode(bytes: seq<Byte>): string {
    if |bytes| == 0 then ""
    else if |bytes| < 3 then EncodeLast(bytes)
    else EncodeBlock(bytes[0], bytes[1], bytes[2]) + Base64Encode(bytes[3..])
  }

  function DecodeBlock(text: string): Option<seq<Byte>>
    requires |text| == 4
  {
    var p, q, r, s := DecodeSextet(text[0]), DecodeSextet(text[1]), DecodeSextet(text[2]), DecodeSextet(text[3]);
    if p.Some? && q.Some? && r.Some? && s.Some?
    then Some([ByteA(p.value, q.value), ByteB(q.value, r.value), ByteC(r.value, s.value)])
    else None
  }

  /** The last block may be padded; bits that no byte uses must then be zero. */
  function DecodeLast(text: string): Option<seq<Byte>>
    requires |text| == 4
  {
    var p, q, r := DecodeSextet(text[0]), DecodeSextet(text[1]), DecodeSextet(text[2]);
    if text[3] != '=' then DecodeBlock(text)
    else if text[2] != '=' then
      if p.Some? && q.Some? && r.Some? && r.value % 4 == 0
      then Some([ByteA(p.value, q.value), ByteB(q.value, r.value)])
      else None
    else
      if p.Some? && q.Some? && q.value % 16 == 0 then Some([ByteA(p.value, q.value)]) else None
  }

  function Base64Decode(text: string): Option<seq<Byte>> {
    if |text| == 0 then Some([])
    else if |text| < 4 then None
    else if |text| == 4 then DecodeLast(text)
    else
      var first, rest := DecodeBlock(text[..4]), Base64Decode(text[4..]);
      if first.Some? && rest.Some? then Some(first.value + rest.value) else None
  }

  lemma {:induction false} EncodedLength(bytes: seq<Byte>)
    ensures |Base64Encode(bytes)| == (|bytes| + 2) / 3 * 4
    decreases |bytes|
  {
    if |bytes| >= 3 {
      EncodedLength(bytes[3..]);
      assert Base64Encode(bytes) == EncodeBlock(bytes[0], bytes[1], bytes[2]) + Base64Encode(bytes[3..]);
      assert (|bytes| + 2) / 3 == (|bytes| - 1) / 3 + 1;
    }
  }

  lemma BlockRoundTrip(a: Byte, b: Byte, c: Byte)
    ensures DecodeBlock(EncodeBlock(a, b, c)) == Some([a, b, c])
    ensures EncodeBlock(a, b, c)[3] != '='
  {
    RegroupBytes(a, b, c);
    SextetRoundTrip(EncodeSextet(SextetP(a)), SextetP(a));
    SextetRoundTrip(EncodeSextet(SextetQ(a, b)), SextetQ(a, b));
    SextetRoundTrip(EncodeSextet(SextetR(b, c)), SextetR(b, c));
    SextetRoundTrip(EncodeSextet(SextetS(c)), SextetS(c));
  }

  lemma SextetsReadAsBytes(a: Byte, b: Byte, c: Byte)
    ensures ((SextetP(a) as int * 64 + SextetQ(a, b)) * 64 + SextetR(b, c)) * 64 + SextetS(c) == (a as int * 256 + b) * 256 + c
  {
  }

  /** Four characters read in base 64 are the three bytes read in base 256. */
  lemma BlockReadsAsItsBytes(a: Byte, b: Byte, c: Byte)
    ensures var text := EncodeBlock(a, b, c);
            && |text| == 4 && forall i :: 0 <= i < 4 ==> DecodeSextet(text[i]).Some?
    ensures var text := EncodeBlock(a, b, c);
            ((DecodeSextet(text[0]).value as int * 64 + DecodeSextet(text[1]).value) * 64
             + DecodeSextet(text[2]).value) * 64 + DecodeSextet(text[3]).value
            == (a as int * 256 + b) * 256 + c
  {
    SextetRoundTrip(EncodeSextet(SextetP(a)), SextetP(a));
    SextetRoundTrip(EncodeSextet(SextetQ(a, b)), SextetQ(a, b));
    SextetRoundTrip(EncodeSextet(SextetR(b, c)), SextetR(b, c));
    SextetRoundTrip(EncodeSextet(SextetS(c)), SextetS(c));
    SextetsReadAsBytes(a, b, c);
  }

  lemma DecodePadded(p: Sextet, q: Sextet, r: Sextet)
    ensures q % 16 == 0 ==> DecodeLast([EncodeSextet(p), EncodeSextet(q), '=', '=']) == Some([ByteA(p, q)])
    ensures r % 4 == 0 ==>
      DecodeLast([EncodeSextet(p), EncodeSextet(q), EncodeSextet(r), '=']) == Some([ByteA(p, q), ByteB(q, r)])
  {
    SextetRoundTrip(EncodeSextet(p), p);
    SextetRoundTrip(EncodeSextet(q), q);
    SextetRoundTrip(EncodeSextet(r), r);
    assert EncodeSextet(r) != '=';
  }

  lemma LastRoundTrip(bytes: seq<Byte>)
    requires 1 <= |bytes| <= 2
    ensures DecodeLast(EncodeLast(bytes)) == Some(bytes)
  {
    if |bytes| == 1 {
      var p, q := SextetP(bytes[0]), SextetQ(bytes[0], 0);
      assert q % 16 == 0 && ByteA(p, q) == bytes[0] by {
        RegroupBytes(bytes[0], 0, 0);
      }
      DecodePadded(p, q, 0);
      assert bytes == [bytes[0]];
    } else {
      var p, q, r := SextetP(bytes[0]), SextetQ(bytes[0], bytes[1]), SextetR(bytes[1], 0);
      assert r % 4 == 0 && ByteA(p, q) == bytes[0] && ByteB(q, r) == bytes[1] by {
        RegroupBytes(bytes[0], bytes[1], 0);
      }
      DecodePadded(p, q, r);
      assert bytes == [bytes[0], bytes[1]];
    }
  }

  lemma DecodeAppend(block: string, rest: string)
    requires |block| == 4 && DecodeBlock(block).Some? && block[3] != '='
    requires Base64Decode(rest).Some?
    ensures Base64Decode(block + rest) == Some(DecodeBlock(block).value + Base64Decode(rest).value)
  {
    if rest == "" {
      assert block + rest == block;
      assert DecodeBlock(block).value + [] == DecodeBlock(block).value;
    } else {
      assert (block + rest)[..4] == block && (block + rest)[4..] == rest;
    }
  }

  /** Decoding an encoding gives the bytes back. */
  lemma {:induction false} DecodeOfEncode(bytes: seq<Byte>)
    ensures Base64Decode(Base64Encode(bytes)) == Some(bytes)
    decreases |bytes|
  {
    if 1 <= |bytes| <= 2 {
      LastRoundTrip(bytes);
    } else if |bytes| >= 3 {
      var block := EncodeBlock(bytes[0], bytes[1], bytes[2]);
      BlockRoundTrip(bytes[0], bytes[1], bytes[2]);
      DecodeOfEncode(bytes[3..]);
      EncodedLength(bytes[3..]);
      assert bytes == [bytes[0], bytes[1], bytes[2]] + bytes[3..];
      DecodeAppend(block, Base64Encode(bytes[3..]));
    }
  }

  lemma BlockIsCanonical(text: string)
    requires |text| == 4 && DecodeBlock(text).Some?
    ensures var bytes := DecodeBlock(text).value;
            |bytes| == 3 && text == EncodeBlock(bytes[0], bytes[1], bytes[2])
  {
    var p, q, r, s := DecodeSextet(text[0]).value, DecodeSextet(text[1]).value,
                      DecodeSextet(text[2]).value, DecodeSextet(text[3]).value;
    RegroupSextets(p, q, r, s);
    SextetRoundTrip(text[0], p);
    SextetRoundTrip(text[1], q);
    SextetRoundTrip(text[2], r);
    SextetRoundTrip(text[3], s);
  }

  lemma TwoBytesAreCanonical(text: string)
    requires |text| == 4 && text[3] == '=' && text[2] != '=' && DecodeLast(text).Some?
    ensures |DecodeLast(text).value| == 2 && text == EncodeLast(DecodeLast(text).value)
  {
    var p, q, r := DecodeSextet(text[0]).value, DecodeSextet(text[1]).value, DecodeSextet(text[2]).value;
    assert text[0] == EncodeSextet(p) && text[1] == EncodeSextet(q) && text[2] == EncodeSextet(r) by {
      SextetRoundTrip(text[0], p);
      SextetRoundTrip(text[1], q);
      SextetRoundTrip(text[2], r);
    }
    var a, b := ByteA(p, q), ByteB(q, r);
    assert SextetP(a) == p && SextetQ(a, b) == q && SextetR(b, 0) == r by {
      RegroupSextets(p, q, r, 0);
    }
    assert DecodeLast(text) == Some([a, b]);
    assert text == [text[0], text[1], text[2], text[3]];
  }

  lemma OneByteIsCanonical(text: string)
    requires |text| == 4 && text[3] == '=' && text[2] == '=' && DecodeLast(text).Some?
    ensures |DecodeLast(text).value| == 1 && text == EncodeLast(DecodeLast(text).value)
  {
    var p, q := DecodeSextet(text[0]).value, DecodeSextet(text[1]).value;
    assert text[0] == EncodeSextet(p) && text[1] == EncodeSextet(q) by {
      SextetRoundTrip(text[0], p);
      SextetRoundTrip(text[1], q);
    }
    assert SextetP(ByteA(p, q)) == p && SextetQ(ByteA(p, q), 0) == q by {
      RegroupSextets(p, q, 0, 0);
    }
    assert DecodeLast(text) == Some([ByteA(p, q)]);
    assert text == [text[0], text[1], text[2], text[3]];
  }

  lemma LastIsCanonical(text: string)
    requires |text| == 4 && DecodeLast(text).Some?
    ensures text == Base64Encode(DecodeLast(text).value)
  {
    if text[3] != '=' {
      BlockIsCanonical(text);
      assert text == text + "";
    } else if text[2] != '=' {
      TwoBytesAreCanonical(text);
    } else {
      OneByteIsCanonical(text);
    }
  }

  /** Only the canonical text decodes: every accepted text is the encoding of what it decodes to. */
  lemma {:induction false} EncodeOfDecode(text: string)
    requires Base64Decode(text).Some?
    ensures Base64Encode(Base64Decode(text).value) == text
    decreases |text|
  {
    if |text| == 4 {
      LastIsCanonical(text);
    } else if |text| > 4 {
      BlockIsCanonical(text[..4]);
      EncodeOfDecode(text[4..]);
      var first, rest := DecodeBlock(text[..4]).value, Base64Decode(text[4..]).value;
      assert (first + rest)[3..] == rest;
      assert text == text[..4] + text[4..];
    }
  }

  /** Text and bytes determine each other. */
  lemma Base64IsExact(text: string, bytes: seq<Byte>)
    ensures Base64Decode(text) == Some(bytes) <==> text == Base64Encode(bytes)
  {
    DecodeOfEncode(bytes);
    if Base64Decode(text) == Some(bytes) {
      EncodeOfDecode(text);
    }
  }

  // ----- Big-endian integers -----

  function Power256(width: nat): (p: nat)
    ensures p > 0
  {
    if width == 0 then 1 else 256 * Power256(width - 1)
  }

  function ToBigEndian(n: nat, width: nat): (r: seq<Byte>)
    ensures |r| == width
  {
    if width == 0 then [] else ToBigEndian(n / 256, width - 1) + [n % 256]
  }

  function FromBigEndian(bytes: seq<Byte>): nat {
    if bytes == [] then 0
    else FromBigEndian(bytes[..|bytes| - 1]) * 256 + bytes[|bytes| - 1]
  }

  lemma {:induction false} BigEndianRoundTrip(n: nat, width: nat)
    requires n < Power256(width)
    ensures FromBigEndian(ToBigEndian(n, width)) == n
  {
    if width > 0 {
      BigEndianRoundTrip(n / 256, width - 1);
      var bytes := ToBigEndian(n, width);
      assert bytes[..width - 1] == ToBigEndian(n / 256, width - 1);
    }
  }

  lemma {:induction false} BigEndianIsCanonical(bytes: seq<Byte>)
    ensures FromBigEndian(bytes) < Power256(|bytes|)
    ensures ToBigEndian(FromBigEndian(bytes), |bytes|) == bytes
    decreases |bytes|
  {
    if bytes != [] {
      BigEndianIsCanonical(bytes[..|bytes| - 1]);
    }
  }

  /** The most significant byte comes first. */
  lemma TwoBytesRead(a: Byte, b: Byte)
    ensures FromBigEndian([a, b]) == a as int * 256 + b
  {
    assert [a, b][..1] == [a] && [a][..0] == [];
    assert FromBigEndian([a]) == a;
  }

  lemma FourBytesRead(a: Byte, b: Byte, c: Byte, d: Byte)
    ensures FromBigEndian([a, b, c, d]) == ((a as int * 256 + b) * 256 + c) * 256 + d
  {
    assert [a, b, c, d][..3] == [a, b, c];
    assert [a, b, c][..2] == [a, b];
    TwoBytesRead(a, b);
  }

  // ----- Identities as text -----

  datatype UidError = InvalidBase64 | WrongLength

  function UidToText(uid: UserUid): string {
    Base64Encode(uid.bytes)
  }

  function UidFromText(text: string): Result<UserUid, UidError> {
    match Base64Decode(text)
    case None => Err(InvalidBase64)
    case Some(bytes) => if |bytes| == 32 then Ok(UserUid(bytes)) else Err(WrongLength)
  }

  /** An identity has exactly one accepted text, so comparing texts is comparing identities. */
  lemma UidTextIsExact(text: string, uid: UserUid)
    ensures UidFromText(text) == Ok(uid) <==> text == UidToText(uid)
    ensures |UidToText(uid)| == 44
  {
    assert Base64Decode(text) == Some(uid.bytes) <==> text == Base64Encode(uid.bytes) by {
      Base64IsExact(text, uid.bytes);
    }
    assert |Base64Encode(uid.bytes)| == 44 by {
      EncodedLength(uid.bytes);
    }
  }

  /** Any other text is refused as no encoding at all, or as one of the wrong number of bytes. */
  lemma UidTextErrors(text: string)
    ensures UidFromText(text) == Err(InvalidBase64) <==> !exists bytes: seq<Byte> :: text == Base64Encode(bytes)
    ensures UidFromText(text) == Err(WrongLength) <==>
      exists bytes: seq<Byte> :: text == Base64Encode(bytes) && |bytes| != 32
  {
    forall bytes: seq<Byte> {
      Base64IsExact(text, bytes);
    }
    if Base64Decode(text).Some? {
      assert text == Base64Encode(Base64Decode(text).value);
    }
  }
}
