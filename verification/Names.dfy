/** The names of identities that have not chosen one (server/src/auth.rs): what a reader can tell from
    them. */
module Names {
  import opened Protocol
  import opened Codec

  /** What a hexadecimal digit stands for; 16 for any other character. */
  function HexValue(c: char): nat {
    if '0' <= c <= '9' then c as int - '0' as int
    else if 'a' <= c <= 'f' then c as int - 'a' as int + 10
    else 16
  }

  /** The number written in hexadecimal, most significant digit first. */
  function ReadHex(text: string): nat {
    if text == "" then 0 else ReadHex(text[..|text| - 1]) * 16 + HexValue(text[|text| - 1])
  }

  lemma HexDigitReads(d: nat)
    requires d < 16
    ensures HexValue(HexDigit(d)) == d
  {
  }

  lemma HexByteReads(b: Byte)
    ensures HexByte(b) == [HexByte(b)[0], HexByte(b)[1]]
    ensures HexValue(HexByte(b)[0]) < 16 && HexValue(HexByte(b)[1]) < 16
    ensures HexValue(HexByte(b)[0]) * 16 + HexValue(HexByte(b)[1]) == b
  {
    HexDigitReads(b / 16);
    HexDigitReads(b % 16);
  }

  lemma ReadTwoMore(text: string, b: Byte)
    ensures ReadHex(text + HexByte(b)) == ReadHex(text) * 256 + b
  {
    HexByteReads(b);
    var high, low := HexByte(b)[0], HexByte(b)[1];
    assert text + HexByte(b) == (text + [high]) + [low];
    assert ((text + [high]) + [low])[..|text| + 1] == text + [high];
    assert (text + [high])[..|text|] == text;
  }

  /** The digits of a name, as they are put together. */
  function Digits(uid: UserUid): string {
    "" + HexByte(uid.bytes[0]) + HexByte(uid.bytes[1]) + HexByte(uid.bytes[2]) + HexByte(uid.bytes[3])
  }

  lemma NameIsPrefixAndDigits(uid: UserUid)
    ensures var name := DefaultDisplayName(uid);
            && |name| == 14 && name[..6] == "Guest-" && name[6..] == Digits(uid)
  {
  }

  lemma DigitsRead(uid: UserUid)
    ensures ReadHex(Digits(uid)) == FromBigEndian(uid.bytes[..4])
  {
    var a, b, c, d := uid.bytes[0], uid.bytes[1], uid.bytes[2], uid.bytes[3];
    ReadTwoMore("", a);
    ReadTwoMore("" + HexByte(a), b);
    ReadTwoMore("" + HexByte(a) + HexByte(b), c);
    ReadTwoMore("" + HexByte(a) + HexByte(b) + HexByte(c), d);
    FourBytesRead(a, b, c, d);
    assert uid.bytes[..4] == [a, b, c, d];
  }

  lemma DigitsAreHex(uid: UserUid)
    ensures |Digits(uid)| == 8 && forall i :: 0 <= i < 8 ==> HexValue(Digits(uid)[i]) < 16
  {
    HexByteReads(uid.bytes[0]);
    HexByteReads(uid.bytes[1]);
    HexByteReads(uid.bytes[2]);
    HexByteReads(uid.bytes[3]);
  }

  /** A default name is `Guest-` and eight hexadecimal digits: the first four key bytes read as one number. */
  lemma DefaultNameReads(uid: UserUid)
    ensures var name := DefaultDisplayName(uid);
            && |name| == 14 && name[..6] == "Guest-"
            && (forall i :: 6 <= i < 14 ==> HexValue(name[i]) < 16)
            && ReadHex(name[6..]) == FromBigEndian(uid.bytes[..4])
  {
    NameIsPrefixAndDigits(uid);
    DigitsRead(uid);
    DigitsAreHex(uid);
    assert forall i :: 6 <= i < 14 ==> DefaultDisplayName(uid)[i] == DefaultDisplayName(uid)[6..][i - 6];
  }

  lemma SameStart(a: seq<Byte>, b: seq<Byte>)
    requires |a| >= 4 && |b| >= 4 && a[..4] == b[..4]
    ensures a[0] == b[0] && a[1] == b[1] && a[2] == b[2] && a[3] == b[3]
  {
    assert a[0] == a[..4][0] && a[1] == a[..4][1] && a[2] == a[..4][2] && a[3] == a[..4][3];
  }

  /** Guests are told apart by the first four bytes of their keys and by nothing else. */
  lemma DefaultNamesAgreeExactly(u: UserUid, v: UserUid)
    ensures DefaultDisplayName(u) == DefaultDisplayName(v) <==> u.bytes[..4] == v.bytes[..4]
  {
    if DefaultDisplayName(u) == DefaultDisplayName(v) {
      DefaultNameReads(u);
      DefaultNameReads(v);
      BigEndianIsCanonical(u.bytes[..4]);
      BigEndianIsCanonical(v.bytes[..4]);
    } else if u.bytes[..4] == v.bytes[..4] {
      SameStart(u.bytes, v.bytes);
    }
  }
}
