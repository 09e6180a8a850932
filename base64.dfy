/**
 * The credential encoding of the `Authorization` header: the string is
 * encoded as UTF-8 bytes (what Node's `Buffer.from` does with a string) and
 * those bytes as Base64 with padding (RFC 4648, section 4). `Decode` is the
 * inverse used to state what the encoding preserves.
 */
module Base64 {
  import opened Common

  newtype byte = b: int | 0 <= b < 256

  /** The character of a 6-bit value in the Base64 alphabet. */
  function CharOf(i: int): (c: char)
    requires 0 <= i < 64
  {
    if i < 26 then ('A' as int + i) as char
    else if i < 52 then ('a' as int + i - 26) as char
    else if i < 62 then ('0' as int + i - 52) as char
    else if i == 62 then '+'
    else '/'
  }

  /** The 6-bit value of an alphabet character; None for any other character. */
  function IndexOf(c: char): (r: Option<int>)
    ensures r.Some? ==> 0 <= r.value < 64 && CharOf(r.value) == c
  {
    if 'A' <= c <= 'Z' then Some(c as int - 'A' as int)
    else if 'a' <= c <= 'z' then Some(c as int - 'a' as int + 26)
    else if '0' <= c <= '9' then Some(c as int - '0' as int + 52)
    else if c == '+' then Some(62)
    else if c == '/' then Some(63)
    else None
  }

  lemma IndexOfCharOf(i: int)
    requires 0 <= i < 64
    ensures IndexOf(CharOf(i)) == Some(i)
  {
  }

  /** Three bytes as four characters: their 24 bits, six at a time. */
  function Block3(a: byte, b: byte, c: byte): string {
    var (a, b, c) := (a as int, b as int, c as int);
    [CharOf(a / 4), CharOf(a % 4 * 16 + b / 16), CharOf(b % 16 * 4 + c / 64), CharOf(c % 64)]
  }

  /** Two trailing bytes as three characters and one `=` (the missing bits are zero). */
  function Block2(a: byte, b: byte): string {
    var (a, b) := (a as int, b as int);
    [CharOf(a / 4), CharOf(a % 4 * 16 + b / 16), CharOf(b % 16 * 4), '=']
  }

  /** One trailing byte as two characters and `==`. */
  function Block1(a: byte): string {
    [CharOf(a as int / 4), CharOf(a as int % 4 * 16), '=', '=']
  }

  function Encode(bs: seq<byte>): (s: string)
    ensures |s| == 4 * ((|bs| + 2) / 3)
    decreases |bs|
  {
    if |bs| == 0 then ""
    else if |bs| == 1 then Block1(bs[0])
    else if |bs| == 2 then Block2(bs[0], bs[1])
    else Block3(bs[0], bs[1], bs[2]) + Encode(bs[3..])
  }

  /** Four characters back to the bytes they encode, or None if they encode none. */
  function DecodeBlock(q: string): Option<seq<byte>>
    requires |q| == 4
  {
    match (IndexOf(q[0]), IndexOf(q[1]), IndexOf(q[2]), IndexOf(q[3]))
    case (Some(i0), Some(i1), Some(i2), Some(i3)) =>
      Some([(i0 * 4 + i1 / 16) as byte, (i1 % 16 * 16 + i2 / 4) as byte, (i2 % 4 * 64 + i3) as byte])
    case (Some(i0), Some(i1), Some(i2), None) =>
      if q[3] != '=' then None
      else Some([(i0 * 4 + i1 / 16) as byte, (i1 % 16 * 16 + i2 / 4) as byte])
    case (Some(i0), Some(i1), None, None) =>
      if q[2] != '=' || q[3] != '=' then None
      else Some([(i0 * 4 + i1 / 16) as byte])
    case _ => None
  }

  function Decode(s: string): Option<seq<byte>>
    decreases |s|
  {
    if |s| == 0 then Some([])
    else if |s| < 4 then None
    else
      match (DecodeBlock(s[..4]), Decode(s[4..]))
      case (Some(b), Some(rest)) => Some(b + rest)
      case _ => None
  }

  lemma SplitHigh(a: int, x: int)
    requires 0 <= a < 256 && 0 <= x < 16
    ensures a / 4 * 4 + a % 4 == a
    ensures (a % 4 * 16 + x) / 16 == a % 4 && (a % 4 * 16 + x) % 16 == x
  {
  }

  lemma SplitMid(b: int, x: int)
    requires 0 <= b < 256 && 0 <= x < 4
    ensures b / 16 * 16 + b % 16 == b
    ensures (b % 16 * 4 + x) / 4 == b % 16 && (b % 16 * 4 + x) % 4 == x
  {
  }

  lemma DecodeBlock3(a: byte, b: byte, c: byte)
    ensures DecodeBlock(Block3(a, b, c)) == Some([a, b, c])
  {
    var (x, y, z) := (a as int, b as int, c as int);
    var (d0, d1, d2, d3) := (x / 4, x % 4 * 16 + y / 16, y % 16 * 4 + z / 64, z % 64);
    IndexOfCharOf(d0); IndexOfCharOf(d1); IndexOfCharOf(d2); IndexOfCharOf(d3);
    SplitHigh(x, y / 16);
    SplitMid(y, z / 64);
    assert z / 64 * 64 + z % 64 == z;
  }

  lemma DecodeBlock2(a: byte, b: byte)
    ensures DecodeBlock(Block2(a, b)) == Some([a, b])
  {
    var (x, y) := (a as int, b as int);
    var (d0, d1, d2) := (x / 4, x % 4 * 16 + y / 16, y % 16 * 4);
    IndexOfCharOf(d0); IndexOfCharOf(d1); IndexOfCharOf(d2);
    SplitHigh(x, y / 16);
    SplitMid(y, 0);
  }

  lemma DecodeBlock1(a: byte)
    ensures DecodeBlock(Block1(a)) == Some([a])
  {
    IndexOfCharOf(a as int / 4); IndexOfCharOf(a as int % 4 * 16);
  }

  /** Decoding a string proceeds block by block. */
  lemma DecodeCons(q: string, rest: string, b: seq<byte>, r: seq<byte>)
    requires |q| == 4 && DecodeBlock(q) == Some(b) && Decode(rest) == Some(r)
    ensures Decode(q + rest) == Some(b + r)
  {
    var s := q + rest;
    assert s[..4] == q && s[4..] == rest;
  }

  lemma DecodeEncodeOne(a: byte)
    ensures Decode(Encode([a])) == Some([a])
  {
    DecodeBlock1(a);
    DecodeCons(Block1(a), "", [a], []);
    assert Block1(a) + "" == Encode([a]) && [a] + [] == [a];
  }

  lemma DecodeEncodeTwo(a: byte, b: byte)
    ensures Decode(Encode([a, b])) == Some([a, b])
  {
    DecodeBlock2(a, b);
    DecodeCons(Block2(a, b), "", [a, b], []);
    assert Block2(a, b) + "" == Encode([a, b]) && [a, b] + [] == [a, b];
  }

  lemma DecodeEncodeStep(bs: seq<byte>)
    requires |bs| >= 3 && Decode(Encode(bs[3..])) == Some(bs[3..])
    ensures Decode(Encode(bs)) == Some(bs)
  {
    var q := Block3(bs[0], bs[1], bs[2]);
    var rest := Encode(bs[3..]);
    assert Encode(bs) == q + rest;
    DecodeBlock3(bs[0], bs[1], bs[2]);
    DecodeCons(q, rest, [bs[0], bs[1], bs[2]], bs[3..]);
    SplitThree(bs);
  }

  lemma SplitThree(bs: seq<byte>)
    requires |bs| >= 3
    ensures [bs[0], bs[1], bs[2]] + bs[3..] == bs
  {
    assert bs == [bs[0]] + bs[1..];
    assert bs[1..] == [bs[1]] + bs[2..];
    assert bs[2..] == [bs[2]] + bs[3..];
  }

  /** Decoding undoes encoding: the header carries exactly the credential bytes. */
  lemma {:induction false} DecodeEncode(bs: seq<byte>)
    ensures Decode(Encode(bs)) == Some(bs)
    decreases |bs|
  {
    if |bs| == 1 {
      DecodeEncodeOne(bs[0]);
      assert bs == [bs[0]];
    } else if |bs| == 2 {
      DecodeEncodeTwo(bs[0], bs[1]);
      assert bs == [bs[0], bs[1]];
    } else if |bs| >= 3 {
      DecodeEncode(bs[3..]);
      DecodeEncodeStep(bs);
    }
  }

  /** The UTF-8 bytes of one character (a Unicode scalar value). */
  function Utf8Char(c: char): (r: seq<byte>)
    ensures 1 <= |r| <= 4
    ensures (|r| == 1) <==> (c as int < 0x80)
    ensures |r| == 1 ==> r[0] as int == c as int
  {
    var cp := c as int;
    if cp < 0x80 then [cp as byte]
    else if cp < 0x800 then [(0xC0 + cp / 64) as byte, (0x80 + cp % 64) as byte]
    else if cp < 0x10000 then
      [(0xE0 + cp / 4096) as byte, (0x80 + cp / 64 % 64) as byte, (0x80 + cp % 64) as byte]
    else
      [(0xF0 + cp / 262144) as byte, (0x80 + cp / 4096 % 64) as byte,
       (0x80 + cp / 64 % 64) as byte, (0x80 + cp % 64) as byte]
  }

  function Utf8(s: string): (r: seq<byte>)
    ensures |r| >= |s|
  {
    if s == [] then [] else Utf8Char(s[0]) + Utf8(s[1..])
  }

  /** An ASCII string is encoded as its own character codes. */
  lemma {:induction false} Utf8Ascii(s: string)
    requires forall i :: 0 <= i < |s| ==> s[i] as int < 0x80
    ensures |Utf8(s)| == |s|
    ensures forall i :: 0 <= i < |s| ==> Utf8(s)[i] as int == s[i] as int
  {
    if s != [] {
      Utf8Ascii(s[1..]);
    }
  }
}
