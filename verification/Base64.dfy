/** The standard Base64 alphabet with padding, section 4 of RFC 4648. */
module Base64 {
  import opened Options
  import opened Utf8

  function Symbol(d: nat): char
    requires d < 64
  {
    if d < 26 then ('A' as int + d) as char
    else if d < 52 then ('a' as int + d - 26) as char
    else if d < 62 then ('0' as int + d - 52) as char
    else if d == 62 then '+' else '/'
  }

  function Digit(c: char): Option<nat> {
    if 'A' <= c <= 'Z' then Some(c as int - 'A' as int)
    else if 'a' <= c <= 'z' then Some(c as int - 'a' as int + 26)
    else if '0' <= c <= '9' then Some(c as int - '0' as int + 52)
    else if c == '+' then Some(62)
    else if c == '/' then Some(63)
    else None
  }

  function Group1(x: byte): string {
    [Symbol(x / 4), Symbol(x % 4 * 16), '=', '=']
  }

  function Group2(x: byte, y: byte): string {
    [Symbol(x / 4), Symbol(x % 4 * 16 + y / 16), Symbol(y % 16 * 4), '=']
  }

  function Group3(x: byte, y: byte, z: byte): string {
    [Symbol(x / 4), Symbol(x % 4 * 16 + y / 16), Symbol(y % 16 * 4 + z / 64), Symbol(z % 64)]
  }

  /** Three bytes make four symbols; one or two left over are padded. */
  function Encode(bs: seq<byte>): string {
    if bs == [] then ""
    else if |bs| == 1 then Group1(bs[0])
    else if |bs| == 2 then Group2(bs[0], bs[1])
    else Group3(bs[0], bs[1], bs[2]) + Encode(bs[3..])
  }

  function Three(a: nat, b: nat, c: nat, d: nat): (bs: seq<byte>)
    ensures |bs| == 3
  {
    [(a * 4 + b / 16) % 256, (b % 16 * 16 + c / 4) % 256, (c % 4 * 64 + d) % 256]
  }

  function Decode(s: string): Option<seq<byte>> {
    if s == "" then Some([])
    else if |s| < 4 then None
    else
      match (Digit(s[0]), Digit(s[1]), Digit(s[2]), Digit(s[3]))
      case (Some(a), Some(b), Some(c), Some(d)) =>
        (match Decode(s[4..])
         case None => None
         case Some(rest) => Some(Three(a, b, c, d) + rest))
      case (Some(a), Some(b), Some(c), None) =>
        if s[3] == '=' && |s| == 4 then Some(Three(a, b, c, 0)[..2]) else None
      case (Some(a), Some(b), None, None) =>
        if s[2] == '=' && s[3] == '=' && |s| == 4 then Some(Three(a, b, 0, 0)[..1]) else None
      case _ => None
  }

  lemma {:induction false} DigitOfSymbol(d: nat)
    requires d < 64
    ensures Digit(Symbol(d)) == Some(d) && Symbol(d) != '='
  {}

  lemma {:induction false} SplitBy16(q: nat, r: nat)
    requires r < 16
    ensures (q * 16 + r) / 16 == q && (q * 16 + r) % 16 == r
  {}

  lemma {:induction false} SplitBy4(q: nat, r: nat)
    requires r < 4
    ensures (q * 4 + r) / 4 == q && (q * 4 + r) % 4 == r
  {}

  lemma {:induction false} ByteIsWhole(x: byte)
    ensures x / 4 * 4 + x % 4 == x && x / 16 * 16 + x % 16 == x && x / 64 * 64 + x % 64 == x
  {}

  lemma {:induction false} ThreeFrom(a: nat, b: nat, c: nat, d: nat, x: byte, y: byte, z: byte)
    requires a * 4 + b / 16 == x && b % 16 * 16 + c / 4 == y && c % 4 * 64 + d == z
    ensures Three(a, b, c, d) == [x, y, z]
  {}

  lemma {:induction false} ThreeOfParts(x: byte, y: byte, z: byte)
    ensures Three(x / 4, x % 4 * 16 + y / 16, y % 16 * 4 + z / 64, z % 64) == [x, y, z]
  {
    var b, c := x % 4 * 16 + y / 16, y % 16 * 4 + z / 64;
    SplitBy16(x % 4, y / 16);
    SplitBy4(y % 16, z / 64);
    assert b / 16 == x % 4 && b % 16 == y / 16 && c / 4 == y % 16 && c % 4 == z / 64;
    ByteIsWhole(x);
    ByteIsWhole(y);
    ByteIsWhole(z);
    ThreeFrom(x / 4, b, c, z % 64, x, y, z);
  }

  lemma {:induction false} DigitsOfParts(x: byte, y: byte, z: byte)
    ensures Digit(Symbol(x / 4)) == Some(x / 4)
    ensures Digit(Symbol(x % 4 * 16 + y / 16)) == Some(x % 4 * 16 + y / 16)
    ensures Digit(Symbol(y % 16 * 4 + z / 64)) == Some(y % 16 * 4 + z / 64)
    ensures Digit(Symbol(z % 64)) == Some(z % 64)
  {
    DigitOfSymbol(x / 4);
    DigitOfSymbol(x % 4 * 16 + y / 16);
    DigitOfSymbol(y % 16 * 4 + z / 64);
    DigitOfSymbol(z % 64);
  }

  lemma {:induction false} FullGroup(x: byte, y: byte, z: byte, rest: string)
    ensures Decode(Group3(x, y, z) + rest)
         == match Decode(rest) case None => None case Some(bs) => Some([x, y, z] + bs)
  {
    DigitsOfParts(x, y, z);
    ThreeOfParts(x, y, z);
    assert (Group3(x, y, z) + rest)[4..] == rest;
  }

  lemma {:induction false} OneLeft(x: byte)
    ensures Decode(Group1(x)) == Some([x])
  {
    DigitsOfParts(x, 0, 0);
    ThreeOfParts(x, 0, 0);
    assert [x, 0, 0][..1] == [x];
  }

  lemma {:induction false} TwoLeft(x: byte, y: byte)
    ensures Decode(Group2(x, y)) == Some([x, y])
  {
    DigitsOfParts(x, y, 0);
    ThreeOfParts(x, y, 0);
    assert [x, y, 0][..2] == [x, y];
  }

  lemma {:induction false} EncodingOfThree(bs: seq<byte>)
    requires |bs| >= 3
    ensures Encode(bs) == Group3(bs[0], bs[1], bs[2]) + Encode(bs[3..])
  {}

  lemma {:induction false} GroupAndRest(s: string, x: byte, y: byte, z: byte, rest: string, bs: seq<byte>)
    requires s == Group3(x, y, z) + rest && Decode(rest) == Some(bs)
    ensures Decode(s) == Some([x, y, z] + bs)
  {
    FullGroup(x, y, z, rest);
  }

  lemma {:induction false} ShortRoundTrip(bs: seq<byte>)
    requires |bs| == 1 || |bs| == 2
    ensures Decode(Encode(bs)) == Some(bs)
  {
    if |bs| == 1 {
      OneLeft(bs[0]);
      assert bs == [bs[0]];
    } else {
      TwoLeft(bs[0], bs[1]);
      assert bs == [bs[0], bs[1]];
    }
  }

  lemma {:induction false} ThreeAndRest(bs: seq<byte>)
    requires |bs| >= 3
    ensures [bs[0], bs[1], bs[2]] + bs[3..] == bs
  {}

  lemma {:induction false} LongRoundTrip(bs: seq<byte>, rest: string)
    requires |bs| >= 3 && rest == Encode(bs[3..]) && Decode(rest) == Some(bs[3..])
    ensures Decode(Encode(bs)) == Some(bs)
  {
    EncodingOfThree(bs);
    GroupAndRest(Encode(bs), bs[0], bs[1], bs[2], rest, bs[3..]);
    ThreeAndRest(bs);
  }

  lemma {:induction false} RoundTrip(bs: seq<byte>)
    ensures Decode(Encode(bs)) == Some(bs)
  {
    if |bs| > 2 {
      RoundTrip(bs[3..]);
      LongRoundTrip(bs, Encode(bs[3..]));
    } else if bs != [] {
      ShortRoundTrip(bs);
    }
  }

  // ---------- The encoding itself ----------

  /** The table of section 4 of RFC 4648, by character codes. */
  lemma {:induction false} SymbolsAreTheTable(d: nat)
    requires d < 64
    ensures d < 26 ==> Symbol(d) as int == 65 + d
    ensures 26 <= d < 52 ==> Symbol(d) as int == 97 + d - 26
    ensures 52 <= d < 62 ==> Symbol(d) as int == 48 + d - 52
    ensures d == 62 ==> Symbol(d) as int == 43
    ensures d == 63 ==> Symbol(d) as int == 47
  {}

  /** The bits of three bytes, cut into four. */
  predicate SameBits(x: byte, y: byte, z: byte, a: nat, b: nat, c: nat, d: nat) {
    a < 64 && b < 64 && c < 64 && d < 64 && x * 65536 + y * 256 + z == a * 262144 + b * 4096 + c * 64 + d
  }

  function ByteAt(bs: seq<byte>, i: nat): byte {
    if i < |bs| then bs[i] else 0
  }

  /** The four characters write three bytes, of which the first `present` are there; the
      others count as zero bits and leave padding. */
  ghost predicate Writes(text: string, x: byte, y: byte, z: byte, present: nat) {
    exists a: nat, b: nat, c: nat, d: nat ::
      && SameBits(x, y, z, a, b, c, d)
      && text == [Symbol(a), Symbol(b), if present >= 2 then Symbol(c) else '=',
                  if present >= 3 then Symbol(d) else '=']
  }

  lemma {:induction false} PartsHaveTheBits(x: byte, y: byte, z: byte)
    ensures SameBits(x, y, z, x / 4, x % 4 * 16 + y / 16, y % 16 * 4 + z / 64, z % 64)
  {
    var x0, x1, y0, y1, z0, z1 := x / 4, x % 4, y / 16, y % 16, z / 64, z % 64;
    assert x == x0 * 4 + x1 && y == y0 * 16 + y1 && z == z0 * 64 + z1;
  }

  lemma {:induction false} WritesBy(
    text: string, x: byte, y: byte, z: byte, present: nat, a: nat, b: nat, c: nat, d: nat)
    requires SameBits(x, y, z, a, b, c, d) && |text| == 4
    requires text[0] == Symbol(a) && text[1] == Symbol(b)
    requires text[2] == if present >= 2 then Symbol(c) else '='
    requires text[3] == if present >= 3 then Symbol(d) else '='
    ensures Writes(text, x, y, z, present)
  {}

  lemma {:induction false} FullGroupWrites(x: byte, y: byte, z: byte)
    ensures Writes(Group3(x, y, z), x, y, z, 3)
  {
    PartsHaveTheBits(x, y, z);
    WritesBy(Group3(x, y, z), x, y, z, 3, x / 4, x % 4 * 16 + y / 16, y % 16 * 4 + z / 64, z % 64);
  }

  lemma {:induction false} ShortGroupWrites(x: byte, y: byte)
    ensures Writes(Group2(x, y), x, y, 0, 2)
  {
    PartsHaveTheBits(x, y, 0);
    WritesBy(Group2(x, y), x, y, 0, 2, x / 4, x % 4 * 16 + y / 16, y % 16 * 4, 0);
  }

  lemma {:induction false} ShortestGroupWrites(x: byte)
    ensures Writes(Group1(x), x, 0, 0, 1)
  {
    PartsHaveTheBits(x, 0, 0);
    WritesBy(Group1(x), x, 0, 0, 1, x / 4, x % 4 * 16, 0, 0);
  }

  /** The first four characters write the first three bytes, or those there are, and the
      rest is the encoding of the other bytes. */
  lemma {:induction false} EncodingWrites(bs: seq<byte>)
    requires bs != []
    ensures |Encode(bs)| >= 4
    ensures Writes(Encode(bs)[..4], bs[0], ByteAt(bs, 1), ByteAt(bs, 2), if |bs| >= 3 then 3 else |bs|)
    ensures Encode(bs)[4..] == if |bs| <= 3 then "" else Encode(bs[3..])
  {
    if |bs| == 1 {
      ShortestGroupWrites(bs[0]);
    } else if |bs| == 2 {
      ShortGroupWrites(bs[0], bs[1]);
    } else {
      FullGroupWrites(bs[0], bs[1], bs[2]);
      var first := Group3(bs[0], bs[1], bs[2]);
      EncodingOfThree(bs);
      assert (first + Encode(bs[3..]))[..4] == first;
    }
  }
}
