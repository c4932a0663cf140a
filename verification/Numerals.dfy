/** Numerals of the freestanding benchmark: what its printers write and its parser reads. */
module Numerals {
  import opened Options

  const LIMIT: int := 0x1_0000_0000_0000_0000

  type U64 = x: int | 0 <= x < LIMIT

  // --- Digits ----------------------------------------------------------------------

  function DigitChar(d: int): char
    requires 0 <= d < 16
  {
    if d < 10 then ('0' as int + d) as char else ('a' as int + d - 10) as char
  }

  /** The value of a digit in either base, or nothing. */
  function DigitValue(c: char): (r: Option<int>)
    ensures r.Some? ==> 0 <= r.value < 16
  {
    if '0' <= c <= '9' then Some(c as int - '0' as int)
    else if 'a' <= c <= 'f' then Some(c as int - 'a' as int + 10)
    else if 'A' <= c <= 'F' then Some(c as int - 'A' as int + 10)
    else None
  }

  lemma DigitRoundTrip(d: int)
    requires 0 <= d < 16
    ensures DigitValue(DigitChar(d)) == Some(d)
    ensures d < 10 ==> '0' <= DigitChar(d) <= '9'
  {
  }

  function Base(hex: bool): int {
    if hex then 16 else 10
  }

  function Times(hex: bool, x: int): int {
    if hex then 16 * x else 10 * x
  }

  predicate IsDigit(hex: bool, c: char) {
    DigitValue(c).Some? && DigitValue(c).value < Base(hex)
  }

  predicate AllDigits(hex: bool, text: string) {
    forall i :: 0 <= i < |text| ==> IsDigit(hex, text[i])
  }

  /** The number that a text of digits denotes. */
  function ValueOf(hex: bool, text: string): (v: int)
    requires AllDigits(hex, text)
    ensures v >= 0
  {
    if text == "" then 0
    else Times(hex, ValueOf(hex, text[..|text| - 1])) + DigitValue(text[|text| - 1]).value
  }

  lemma ValueSnoc(hex: bool, text: string, c: char)
    requires AllDigits(hex, text) && IsDigit(hex, c)
    ensures AllDigits(hex, text + [c])
    ensures ValueOf(hex, text + [c]) == Times(hex, ValueOf(hex, text)) + DigitValue(c).value
  {
  }

  lemma {:induction false} ValueGrows(hex: bool, text: string, n: nat)
    requires AllDigits(hex, text) && n <= |text|
    ensures ValueOf(hex, text[..n]) <= ValueOf(hex, text)
    decreases |text|
  {
    if n == |text| {
      assert text[..n] == text;
    } else {
      assert text[..|text| - 1][..n] == text[..n];
      ValueGrows(hex, text[..|text| - 1], n);
    }
  }

  // --- What the printers write -----------------------------------------------------

  /** Decimal digits without leading zeros. */
  function Dec(v: nat): (s: string)
    ensures s != ""
  {
    if v < 10 then [DigitChar(v)] else Dec(v / 10) + [DigitChar(v % 10)]
  }

  /** The last `k` digits. */
  function Fixed(hex: bool, v: nat, k: nat): (s: string)
    ensures |s| == k
  {
    if k == 0 then ""
    else if hex then Fixed(hex, v / 16, k - 1) + [DigitChar(v % 16)]
    else Fixed(hex, v / 10, k - 1) + [DigitChar(v % 10)]
  }

  function Hex(v: nat): string {
    "0x" + Fixed(true, v, 16)
  }

  function Seconds(ns: nat): string {
    Dec(ns / 1000000000) + "." + Fixed(false, ns % 1000000000, 9)
  }

  function Milli(v: nat): string {
    Dec(v / 1000) + "." + Fixed(false, v % 1000, 3)
  }

  lemma {:induction false} DecValue(v: nat)
    ensures AllDigits(false, Dec(v)) && ValueOf(false, Dec(v)) == v
  {
    if v < 10 {
      DigitRoundTrip(v);
      ValueSnoc(false, "", DigitChar(v));
      assert "" + [DigitChar(v)] == Dec(v);
    } else {
      DecValue(v / 10);
      DigitRoundTrip(v % 10);
      ValueSnoc(false, Dec(v / 10), DigitChar(v % 10));
    }
  }

  /** Decimal text starts with a zero only for zero. */
  lemma {:induction false} DecLeads(v: nat)
    ensures Dec(v)[0] == '0' ==> v == 0 && |Dec(v)| == 1
  {
    if v >= 10 {
      DecLeads(v / 10);
    }
  }

  function Power(hex: bool, k: nat): (p: int)
    ensures p > 0
  {
    if k == 0 then 1 else Times(hex, Power(hex, k - 1))
  }

  lemma {:induction false} FixedValue(hex: bool, v: nat, k: nat)
    requires v < Power(hex, k)
    ensures AllDigits(hex, Fixed(hex, v, k)) && ValueOf(hex, Fixed(hex, v, k)) == v
    decreases k
  {
    if k > 0 {
      if hex {
        FixedValue(hex, v / 16, k - 1);
        DigitRoundTrip(v % 16);
        ValueSnoc(hex, Fixed(hex, v / 16, k - 1), DigitChar(v % 16));
      } else {
        FixedValue(hex, v / 10, k - 1);
        DigitRoundTrip(v % 10);
        ValueSnoc(hex, Fixed(hex, v / 10, k - 1), DigitChar(v % 10));
      }
    }
  }

  lemma Powers()
    ensures Power(true, 16) == LIMIT
    ensures Power(false, 3) == 1000 && Power(false, 9) == 1000000000
    ensures Power(false, 20) == 100000000000000000000
  {
    assert Power(true, 4) == 65536;
    assert Power(true, 8) == 0x1_0000_0000;
    assert Power(true, 12) == 0x1_0000_0000_0000;
    assert Power(false, 3) == 1000;
    assert Power(false, 6) == 1000000;
    assert Power(false, 9) == 1000000000;
    assert Power(false, 12) == 1000000000000;
    assert Power(false, 16) == 10000000000000000;
  }

  lemma {:induction false} DecShort(v: nat, k: nat)
    requires v < Power(false, k) && k > 0
    ensures |Dec(v)| <= k
    decreases k
  {
    if v >= 10 {
      assert Power(false, 1) == 10;
      DecShort(v / 10, k - 1);
    }
  }

  /** Twenty digits are enough for any 64-bit number. */
  lemma DecFits(v: U64)
    ensures 1 <= |Dec(v)| <= 20
  {
    Powers();
    DecShort(v, 20);
  }

  /** The text is the number, exactly, at nine or three places. */
  lemma FixedPointIsExact(v: nat)
    ensures var whole, part := Dec(v / 1000000000), Fixed(false, v % 1000000000, 9);
            && Seconds(v) == whole + "." + part && |part| == 9
            && AllDigits(false, whole) && AllDigits(false, part)
            && ValueOf(false, whole) * 1000000000 + ValueOf(false, part) == v
    ensures var whole, part := Dec(v / 1000), Fixed(false, v % 1000, 3);
            && Milli(v) == whole + "." + part && |part| == 3
            && AllDigits(false, whole) && AllDigits(false, part)
            && ValueOf(false, whole) * 1000 + ValueOf(false, part) == v
  {
    Powers();
    DecValue(v / 1000000000);
    FixedValue(false, v % 1000000000, 9);
    DecValue(v / 1000);
    FixedValue(false, v % 1000, 3);
  }

  // --- The parser ------------------------------------------------------------------

  predicate HasPrefix(text: string) {
    |text| >= 2 && text[0] == '0' && (text[1] == 'x' || text[1] == 'X')
  }

  function Body(text: string): string {
    if HasPrefix(text) then text[2..] else text
  }

  /** Digits of the base that the prefix announces, at least one. */
  predicate IsNumeral(text: string) {
    Body(text) != "" && AllDigits(HasPrefix(text), Body(text))
  }

  function NumeralValue(text: string): int
    requires IsNumeral(text)
  {
    ValueOf(HasPrefix(text), Body(text))
  }

  /** Letters of either case are the same digits. */
  lemma CaseDoesNotMatter(k: int)
    requires 0 <= k < 6
    ensures DigitValue(('a' as int + k) as char) == DigitValue(('A' as int + k) as char) == Some(10 + k)
  {
  }

  lemma PrefixSpelled(text: string)
    ensures HasPrefix(text) <==> |text| >= 2 && (text[..2] == "0x" || text[..2] == "0X")
  {
    if |text| >= 2 {
      assert text[..2] == [text[0], text[1]];
    }
  }

  lemma PrefixedIsNotDecimal(text: string)
    requires HasPrefix(text)
    ensures !AllDigits(false, text)
  {
    assert !IsDigit(false, text[1]);
  }

  /** A numeral is decimal digits, or 0x or 0X and hexadecimal digits, at least one. */
  lemma NumeralsSpelled(text: string)
    ensures IsNumeral(text) <==>
              || (text != "" && AllDigits(false, text))
              || (|text| > 2 && (text[..2] == "0x" || text[..2] == "0X") && AllDigits(true, text[2..]))
    ensures IsNumeral(text) ==>
              NumeralValue(text) == if AllDigits(false, text) then ValueOf(false, text) else ValueOf(true, text[2..])
  {
    PrefixSpelled(text);
    if HasPrefix(text) {
      PrefixedIsNotDecimal(text);
    }
  }

  lemma RoomFor(hex: bool, parsed: int, digit: int)
    requires 0 <= parsed && 0 <= digit < Base(hex)
    ensures parsed > (LIMIT - 1 - digit) / Base(hex) <==> Times(hex, parsed) + digit >= LIMIT
  {
  }

  /** A number comes out exactly when the text is a numeral below 2^64, and it is the one
      that the text denotes; a null or empty text is refused. */
  method ParseU64(text: Option<string>) returns (value: Option<U64>)
    ensures value.Some? <==> text.Some? && IsNumeral(text.value) && NumeralValue(text.value) < LIMIT
    ensures value.Some? ==> value.value == NumeralValue(text.value)
  {
    if text.None? || text.value == "" {
      return None;
    }
    var hex := HasPrefix(text.value);
    var body := Body(text.value);
    if body == "" {
      return None;
    }
    var parsed: U64 := 0;
    var i := 0;
    while i < |body|
      invariant 0 <= i <= |body|
      invariant AllDigits(hex, body[..i]) && ValueOf(hex, body[..i]) == parsed
    {
      var digit := DigitValue(body[i]);
      if digit.None? || digit.value >= Base(hex) {
        return None;
      }
      RoomFor(hex, parsed, digit.value);
      assert body[..i + 1] == body[..i] + [body[i]];
      ValueSnoc(hex, body[..i], body[i]);
      if parsed > (LIMIT - 1 - digit.value) / Base(hex) {
        if AllDigits(hex, body) {
          ValueGrows(hex, body, i + 1);
        }
        return None;
      }
      parsed := Times(hex, parsed) + digit.value;
      i := i + 1;
    }
    assert body[..i] == body;
    return Some(parsed);
  }

  /** The parser reads back what the decimal printer writes. */
  lemma DecimalReadsBack(v: U64)
    ensures IsNumeral(Dec(v)) && NumeralValue(Dec(v)) == v
  {
    DecValue(v);
    DecLeads(v);
    assert !HasPrefix(Dec(v));
  }

  /** And what the hexadecimal printer writes. */
  lemma HexadecimalReadsBack(v: U64)
    ensures IsNumeral(Hex(v)) && NumeralValue(Hex(v)) == v
  {
    Powers();
    FixedValue(true, v, 16);
    assert Hex(v)[2..] == Fixed(true, v, 16);
  }
}
