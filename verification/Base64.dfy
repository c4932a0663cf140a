/** Base64 as in section 4 of RFC 4648: three bytes become four characters, and the last
    group is padded. */
module Base64 {
  import opened Options
  import opened FrameModel

  function Digit(v: int): char
    requires 0 <= v < 64
  {
    if v < 26 then 'A' + v as char
    else if v < 52 then 'a' + (v - 26) as char
    else if v < 62 then '0' + (v - 52) as char
    else if v == 62 then '+' else '/'
  }

  /** The value of a character of the alphabet, or -1. */
  function Value(c: char): (v: int)
    ensures -1 <= v < 64
  {
    if 'A' <= c <= 'Z' then c as int - 'A' as int
    else if 'a' <= c <= 'z' then c as int - 'a' as int + 26
    else if '0' <= c <= '9' then c as int - '0' as int + 52
    else if c == '+' then 62 else if c == '/' then 63 else -1
  }

  lemma ValueOfDigit(v: int)
    requires 0 <= v < 64
    ensures Value(Digit(v)) == v && Digit(v) != '='
  {
  }

  function Encode(b: Bytes): string {
    if b == [] then ""
    else if |b| == 1 then [Digit(b[0] / 4), Digit(b[0] % 4 * 16), '=', '=']
    else if |b| == 2 then [Digit(b[0] / 4), Digit(b[0] % 4 * 16 + b[1] / 16), Digit(b[1] % 16 * 4), '=']
    else [Digit(b[0] / 4), Digit(b[0] % 4 * 16 + b[1] / 16), Digit(b[1] % 16 * 4 + b[2] / 64), Digit(b[2] % 64)]
         + Encode(b[3..])
  }

  function Decode(s: string): Option<Bytes> {
    if s == "" then Some([])
    else if |s| < 4 || Value(s[0]) < 0 || Value(s[1]) < 0 then None
    else
      var a, b := Value(s[0]), Value(s[1]);
      if s[2] == '=' then
        if |s| == 4 && s[3] == '=' then Some([a * 4 + b / 16]) else None
      else if Value(s[2]) < 0 then None
      else
        var c := Value(s[2]);
        if s[3] == '=' then
          if |s| == 4 then Some([a * 4 + b / 16, b % 16 * 16 + c / 4]) else None
        else if Value(s[3]) < 0 then None
        else
          match Decode(s[4..])
          case None => None
          case Some(rest) => Some([a * 4 + b / 16, b % 16 * 16 + c / 4, c % 4 * 64 + Value(s[3])] + rest)
  }

  /** The bits of three bytes, regrouped and put back. */
  lemma Regroup(x: Byte, y: Byte, z: Byte)
    ensures 0 <= x / 4 < 64 && 0 <= x % 4 * 16 + y / 16 < 64 && 0 <= y % 16 * 4 + z / 64 < 64
    ensures x / 4 * 4 + (x % 4 * 16 + y / 16) / 16 == x
    ensures (x % 4 * 16 + y / 16) % 16 * 16 + (y % 16 * 4 + z / 64) / 4 == y
    ensures (y % 16 * 4 + z / 64) % 4 * 64 + z % 64 == z
  {
  }

  lemma DecodeFour(a: int, b: int, c: int, d: int, x: Byte, y: Byte, z: Byte, text: string, tail: Bytes)
    requires 0 <= a < 64 && 0 <= b < 64 && 0 <= c < 64 && 0 <= d < 64
    requires a * 4 + b / 16 == x && b % 16 * 16 + c / 4 == y && c % 4 * 64 + d == z
    requires Decode(text) == Some(tail)
    ensures Decode([Digit(a), Digit(b), Digit(c), Digit(d)] + text) == Some([x, y, z] + tail)
  {
    ValueOfDigit(a);
    ValueOfDigit(b);
    ValueOfDigit(c);
    ValueOfDigit(d);
    assert ([Digit(a), Digit(b), Digit(c), Digit(d)] + text)[4..] == text;
  }

  lemma GroupDecodes(x: Byte, y: Byte, z: Byte, text: string, tail: Bytes)
    requires Decode(text) == Some(tail)
    ensures Decode([Digit(x / 4), Digit(x % 4 * 16 + y / 16), Digit(y % 16 * 4 + z / 64), Digit(z % 64)] + text)
            == Some([x, y, z] + tail)
  {
    Regroup(x, y, z);
    DecodeFour(x / 4, x % 4 * 16 + y / 16, y % 16 * 4 + z / 64, z % 64, x, y, z, text, tail);
  }

  lemma PairDecodes(x: Byte, y: Byte)
    ensures Decode([Digit(x / 4), Digit(x % 4 * 16 + y / 16), Digit(y % 16 * 4), '=']) == Some([x, y])
  {
    Regroup(x, y, 0);
    ValueOfDigit(x / 4);
    ValueOfDigit(x % 4 * 16 + y / 16);
    ValueOfDigit(y % 16 * 4);
  }

  lemma SingleDecodes(x: Byte)
    ensures Decode([Digit(x / 4), Digit(x % 4 * 16), '=', '=']) == Some([x])
  {
  }

  lemma {:induction false} RoundTrip(b: Bytes)
    ensures Decode(Encode(b)) == Some(b)
    decreases |b|
  {
    if |b| == 1 {
      SingleDecodes(b[0]);
      assert b == [b[0]];
    } else if |b| == 2 {
      PairDecodes(b[0], b[1]);
      assert b == [b[0], b[1]];
    } else if |b| > 2 {
      RoundTrip(b[3..]);
      GroupRoundTrip(b[0], b[1], b[2], b[3..], b);
    }
  }

  lemma GroupRoundTrip(x: Byte, y: Byte, z: Byte, rest: Bytes, b: Bytes)
    requires |b| > 2 && b[0] == x && b[1] == y && b[2] == z && b[3..] == rest && Decode(Encode(rest)) == Some(rest)
    ensures Decode(Encode(b)) == Some(b)
  {
    GroupDecodes(x, y, z, Encode(rest), rest);
    assert b == [x, y, z] + rest;
  }

  lemma OneGroupMore(n: nat)
    ensures EncodedChars(n + 3) == EncodedChars(n) + 4
  {
  }

  lemma {:induction false} Length(b: Bytes)
    ensures |Encode(b)| == EncodedChars(|b|)
    decreases |b|
  {
    if |b| > 2 {
      Length(b[3..]);
      OneGroupMore(|b[3..]|);
    }
  }

  /** Whatever is decoded had the length of an encoding of the result. */
  lemma {:induction false} DecodedLength(s: string)
    requires Decode(s).Some?
    ensures |s| == EncodedChars(|Decode(s).value|)
  {
    if |s| > 4 {
      DecodedLength(s[4..]);
      OneGroupMore(|Decode(s[4..]).value|);
    }
  }

  lemma SameNumber(a: int, b: int, c: int, d: int, x: int, y: int, z: int)
    requires a * 4 + b / 16 == x && b % 16 * 16 + c / 4 == y && c % 4 * 64 + d == z
    ensures ((a * 64 + b) * 64 + c) * 64 + d == (x * 256 + y) * 256 + z
  {
  }

  /** Three bytes become four digits of the same number, in base 64 instead of 256. */
  lemma GroupKeepsNumber(x: Byte, y: Byte, z: Byte) returns (a: int, b: int, c: int, d: int)
    ensures 0 <= a < 64 && 0 <= b < 64 && 0 <= c < 64 && 0 <= d < 64
    ensures Encode([x, y, z]) == [Digit(a), Digit(b), Digit(c), Digit(d)]
    ensures ((a * 64 + b) * 64 + c) * 64 + d == (x * 256 + y) * 256 + z
  {
    a, b, c, d := x / 4, x % 4 * 16 + y / 16, y % 16 * 4 + z / 64, z % 64;
    Regroup(x, y, z);
    SameNumber(a, b, c, d, x, y, z);
    GroupEncodes(x, y, z, a, b, c, d);
  }

  lemma GroupEncodes(x: Byte, y: Byte, z: Byte, a: int, b: int, c: int, d: int)
    requires 0 <= a < 64 && 0 <= b < 64 && 0 <= c < 64 && 0 <= d < 64
    requires a == x / 4 && b == x % 4 * 16 + y / 16 && c == y % 16 * 4 + z / 64 && d == z % 64
    ensures Encode([x, y, z]) == [Digit(a), Digit(b), Digit(c), Digit(d)]
  {
    assert [x, y, z][3..] == [];
    assert Encode([]) == "";
  }

  /** The alphabet: capital letters, small letters, digits, plus and slash, each run in
      order. */
  lemma AlphabetRuns(v: int)
    requires 0 <= v < 64
    ensures Digit(0) == 'A' && Digit(25) == 'Z' && Digit(26) == 'a' && Digit(51) == 'z' && Digit(52) == '0'
            && Digit(61) == '9' && Digit(62) == '+' && Digit(63) == '/'
    ensures v !in {25, 51, 61, 62, 63} ==> Digit(v + 1) as int == Digit(v) as int + 1
  {
  }
}
