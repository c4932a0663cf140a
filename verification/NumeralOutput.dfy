/** The benchmark's output buffer of 1024 characters and the printers that fill it. */
module NumeralOutput {
  import opened Numerals

  const CAPACITY: int := 1024

  /** What fits into the buffer. */
  function Fit(s: string): string {
    if |s| <= 1024 then s else s[..1024]
  }

  function Reversed(s: string): string {
    if s == "" then "" else [s[|s| - 1]] + Reversed(s[..|s| - 1])
  }

  lemma {:induction false} ReversedSnoc(s: string, c: char)
    ensures Reversed(s + [c]) == [c] + Reversed(s)
  {
  }

  /** The digits still to come, followed by those already in the scratch array. */
  function Pending(value: nat, reversed: string): string {
    if value == 0 && reversed != "" then Reversed(reversed) else Dec(value) + Reversed(reversed)
  }

  lemma PendingStep(value: nat, reversed: string)
    requires value > 0 || reversed == ""
    ensures Pending(value / 10, reversed + [DigitChar(value % 10)]) == Pending(value, reversed)
  {
  }

  lemma QuotientUnique(x: int, p: int, q: int, r: int)
    requires p > 0 && x == q * p + r && 0 <= r < p
    ensures x / p == q
  {
    var d := x / p - q;
    assert d * p + (x % p - r) == 0;
    assert d > 0 ==> d * p >= p;
    assert d < 0 ==> d * p <= -p;
  }

  lemma DivTwice(hex: bool, v: nat, p: int)
    requires p > 0
    ensures v / Base(hex) / p == v / Times(hex, p)
  {
    if hex {
      var q, r := v / (16 * p), v % (16 * p);
      assert v == 16 * (q * p) + r;
      QuotientUnique(v / 16, p, q, r / 16);
    } else {
      var q, r := v / (10 * p), v % (10 * p);
      assert v == 10 * (q * p) + r;
      QuotientUnique(v / 10, p, q, r / 10);
    }
  }

  /** The digit at one place of a fixed-width numeral. */
  lemma {:induction false} FixedDigit(hex: bool, v: nat, k: nat, i: nat)
    requires i < k
    ensures Fixed(hex, v, k)[i] == DigitChar(v / Power(hex, k - 1 - i) % Base(hex))
    decreases k
  {
    FixedSnoc(hex, v, k - 1);
    if i < k - 1 {
      FixedDigit(hex, v / Base(hex), k - 1, i);
      PowerUp(hex, k - 2 - i);
      DivTwice(hex, v, Power(hex, k - 2 - i));
    } else {
      assert Power(hex, 0) == 1;
    }
  }

  lemma FixedSnoc(hex: bool, v: nat, k: nat)
    ensures Fixed(hex, v, k + 1) == Fixed(hex, v / Base(hex), k) + [DigitChar(v % Base(hex))]
  {
  }

  lemma PowerUp(hex: bool, k: nat)
    ensures Power(hex, k + 1) == Times(hex, Power(hex, k))
  {
  }

  /** The first `n` durations with commas between them. */
  function Listed(s: seq<U64>, n: nat): string
    requires n <= |s|
  {
    if n == 0 then "" else if n == 1 then Seconds(s[0]) else Listed(s, n - 1) + "," + Seconds(s[n - 1])
  }

  /** The buffer; `asked` is everything that was ever appended. */
  class Output {
    const data: array<char>
    var length: nat
    ghost var asked: string

    ghost predicate Valid()
      reads this, data
    {
      data.Length == CAPACITY && length <= CAPACITY && data[..length] == Fit(asked)
    }

    constructor ()
      ensures Valid() && asked == "" && fresh(data)
    {
      data := new char[CAPACITY];
      length := 0;
      asked := "";
    }

    method AppendChar(value: char)
      requires Valid()
      modifies this, data
      ensures Valid() && asked == old(asked) + [value]
    {
      if length < CAPACITY {
        data[length] := value;
        length := length + 1;
      }
      asked := asked + [value];
    }

    method AppendText(text: string)
      requires Valid()
      modifies this, data
      ensures Valid() && asked == old(asked) + text
    {
      var i := 0;
      while i < |text|
        invariant 0 <= i <= |text| && Valid()
        invariant asked == old(asked) + text[..i]
      {
        AppendChar(text[i]);
        i := i + 1;
      }
    }

    method AppendU64(number: U64)
      requires Valid()
      modifies this, data
      ensures Valid() && asked == old(asked) + Dec(number)
    {
      var reversed := Digits(number);
      EmitReversed(reversed);
    }

    /** The digits were made last first. */
    method EmitReversed(digits: string)
      requires Valid()
      modifies this, data
      ensures Valid() && asked == old(asked) + Reversed(digits)
    {
      var count := |digits|;
      assert digits[..count] == digits;
      while count > 0
        invariant 0 <= count <= |digits| && Valid()
        invariant asked + Reversed(digits[..count]) == old(asked) + Reversed(digits)
      {
        count := count - 1;
        ghost var rest := Reversed(digits[..count]);
        assert digits[..count + 1] == digits[..count] + [digits[count]];
        ReversedSnoc(digits[..count], digits[count]);
        Associate(asked, digits[count], rest);
        AppendChar(digits[count]);
      }
    }

    method AppendHex64(value: U64)
      requires Valid()
      modifies this, data
      ensures Valid() && asked == old(asked) + Hex(value)
    {
      AppendText("0x");
      ghost var start, all := asked, Fixed(true, value, 16);
      // One turn for each shift 60, 56, ..., 0; the divisor is two to that shift.
      var turn := 0;
      while turn < 16
        invariant 0 <= turn <= 16 && Valid()
        invariant asked == start + all[..turn]
      {
        FixedDigit(true, value, 16, turn);
        AppendChar(DigitChar(value / Power(true, 15 - turn) % 16));
        turn := turn + 1;
      }
      assert all[..16] == all;
    }

    /** Nine digits, the divisor going down from 10^8. */
    method AppendNine(fraction: nat)
      requires Valid()
      modifies this, data
      ensures Valid() && asked == old(asked) + Fixed(false, fraction, 9)
    {
      ghost var start, all := asked, Fixed(false, fraction, 9);
      assert Power(false, 8) == 100000000;
      var divisor := 100000000;
      ghost var turn := 0;
      while divisor > 0
        invariant 0 <= turn <= 9 && Valid()
        invariant divisor == if turn < 9 then Power(false, 8 - turn) else 0
        invariant asked == start + all[..turn]
        decreases divisor
      {
        FixedDigit(false, fraction, 9, turn);
        NextDivisor(8 - turn);
        AppendChar(DigitChar(fraction / divisor % 10));
        assert start + all[..turn + 1] == start + all[..turn] + [all[turn]];
        divisor := divisor / 10;
        turn := turn + 1;
      }
      assert all[..9] == all;
    }

    method AppendSeconds(nanoseconds: U64)
      requires Valid()
      modifies this, data
      ensures Valid() && asked == old(asked) + Seconds(nanoseconds)
    {
      AppendU64(nanoseconds / 1000000000);
      AppendChar('.');
      AppendNine(nanoseconds % 1000000000);
      Associate(old(asked) + Dec(nanoseconds / 1000000000), '.', Fixed(false, nanoseconds % 1000000000, 9));
      Regroup(old(asked), Dec(nanoseconds / 1000000000), '.', Fixed(false, nanoseconds % 1000000000, 9));
    }

    method AppendMilli(thousandths: U64)
      requires Valid()
      modifies this, data
      ensures Valid() && asked == old(asked) + Milli(thousandths)
    {
      var fraction := thousandths % 1000;
      AppendU64(thousandths / 1000);
      AppendChar('.');
      ghost var start := asked;
      AppendChar(DigitChar(fraction / 100));
      AppendChar(DigitChar(fraction / 10 % 10));
      AppendChar(DigitChar(fraction % 10));
      ThreeDigits(fraction);
      assert asked == start + Fixed(false, fraction, 3);
      Regroup(old(asked), Dec(thousandths / 1000), '.', Fixed(false, fraction, 3));
    }

    /** Three durations with commas between them. */
    method AppendTimes(times: seq<U64>)
      requires Valid() && |times| == 3
      modifies this, data
      ensures Valid() && asked == old(asked) + Listed(times, 3)
    {
      var i := 0;
      while i < 3
        invariant 0 <= i <= 3 && Valid()
        invariant asked == old(asked) + Listed(times, i)
      {
        if i > 0 {
          AppendChar(',');
        }
        AppendSeconds(times[i]);
        ListedStep(old(asked), times, i);
        i := i + 1;
      }
    }
  }

  lemma Associate(a: string, c: char, b: string)
    ensures a + [c] + b == a + ([c] + b)
  {
  }

  lemma Regroup(a: string, whole: string, c: char, part: string)
    ensures a + whole + [c] + part == a + (whole + [c] + part)
  {
  }

  lemma ListedStep(start: string, times: seq<U64>, i: nat)
    requires i < |times|
    ensures start + Listed(times, i + 1)
            == if i == 0 then start + Listed(times, i) + Seconds(times[i])
               else start + Listed(times, i) + [','] + Seconds(times[i])
  {
  }

  /** The digits of a number, last first, in a scratch array of 24. */
  method Digits(number: U64) returns (digits: string)
    ensures Reversed(digits) == Dec(number)
  {
    var reversed := new char[24];
    var value: nat, count := number, 0;
    Powers();
    assert Dec(number) + Reversed(reversed[..0]) == Dec(number);
    var going := true;
    while going
      invariant 0 <= count <= 20 && value < Power(false, 20 - count)
      invariant Pending(value, reversed[..count]) == Dec(number)
      invariant going ==> value > 0 || count == 0
      invariant !going ==> value == 0 && count > 0
      decreases 20 - count, going
    {
      PendingStep(value, reversed[..count]);
      NextValue(value, 20 - count);
      ghost var before := reversed[..count];
      reversed[count] := DigitChar(value % 10);
      assert reversed[..count + 1] == before + [DigitChar(value % 10)];
      count := count + 1;
      value := value / 10;
      going := value > 0;
    }
    digits := reversed[..count];
  }

  lemma NextDivisor(k: nat)
    ensures Power(false, k) / 10 == if k == 0 then 0 else Power(false, k - 1)
  {
  }

  lemma NextValue(v: nat, k: nat)
    requires v < Power(false, k)
    ensures v > 0 ==> k > 0
    ensures k > 0 ==> v / 10 < Power(false, k - 1)
  {
  }

  lemma ThreeDigits(f: nat)
    requires f < 1000
    ensures Fixed(false, f, 3) == [DigitChar(f / 100), DigitChar(f / 10 % 10), DigitChar(f % 10)]
  {
    FixedSnoc(false, f, 2);
    FixedSnoc(false, f / 10, 1);
    FixedSnoc(false, f / 10 / 10, 0);
    Hundreds(f);
  }

  lemma Hundreds(f: nat)
    requires f < 1000
    ensures f / 10 / 10 == f / 100 && f / 10 / 10 % 10 == f / 100
  {
  }
}
