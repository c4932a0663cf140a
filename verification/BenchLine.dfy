/** The result line of the freestanding benchmark, as it is printed and as it reads. */
module BenchLine {
  import opened Options
  import opened Numerals
  import opened NumeralOutput

  // --- The result line -------------------------------------------------------------

  datatype BenchResult = BenchResult(write: seq<U64>, read: seq<U64>, random: U64, checksum: U64)

  /** Three durations of each kind, with medians that can be divided by. */
  predicate Measured(r: BenchResult) {
    |r.write| == 3 && |r.read| == 3 && Median(r.write) > 0 && Median(r.read) > 0
  }

  /** The middle one of three, as the source's exchanges leave it. */
  function Median(s: seq<U64>): (m: U64)
    requires |s| == 3
    ensures m in s && NotAbove(s, m) >= 2 && NotBelow(s, m) >= 2
  {
    var first := if s[0] > s[1] then s[1] else s[0];
    var second := if s[0] > s[1] then s[0] else s[1];
    var second' := if second > s[2] then s[2] else second;
    if first > second' then first else second'
  }

  /** How many of three are at most `m`. */
  function NotAbove(s: seq<U64>, m: U64): int
    requires |s| == 3
  {
    (if s[0] <= m then 1 else 0) + (if s[1] <= m then 1 else 0) + (if s[2] <= m then 1 else 0)
  }

  function NotBelow(s: seq<U64>, m: U64): int
    requires |s| == 3
  {
    (if s[0] >= m then 1 else 0) + (if s[1] >= m then 1 else 0) + (if s[2] >= m then 1 else 0)
  }

  /** Throughput in thousandths of a MiB per second, in 64-bit arithmetic. */
  function Throughput(bytes: U64, ns: U64): U64
    requires ns > 0
  {
    bytes / 1024 * 976562500 % LIMIT / ns
  }

  /** The thousandths of a MiB per second that `bytes` in `ns` nanoseconds are, cut off. */
  predicate RateIs(bytes: nat, ns: nat, rate: nat) {
    rate * ns * 1048576 <= bytes * 1000000000000 < (rate + 1) * ns * 1048576
  }

  lemma Cancel(a: int, b: int, k: int)
    requires k > 0
    ensures a * k <= b * k <==> a <= b
    ensures a * k < b * k <==> a < b
  {
  }

  /** Of a whole number of KiB the rate is right exactly when the product that is divided
      fits 64 bits. */
  lemma ThroughputExactly(bytes: U64, ns: U64)
    requires ns > 0 && bytes % 1024 == 0
    ensures RateIs(bytes, ns, Throughput(bytes, ns)) <==> bytes / 1024 * 976562500 < 0x1_0000_0000_0000_0000
  {
    var product, rate := bytes / 1024 * 976562500, Throughput(bytes, ns);
    assert bytes * 1000000000000 == product * 1048576;
    Cancel(rate * ns, product, 1048576);
    Cancel(product, (rate + 1) * ns, 1048576);
    Quotients(product, ns);
  }

  /** A product that was cut to 64 bits has another quotient. */
  lemma Quotients(product: nat, ns: U64)
    requires ns > 0
    ensures var rate := product % 0x1_0000_0000_0000_0000 / ns;
            rate * ns <= product < (rate + 1) * ns <==> product < 0x1_0000_0000_0000_0000
  {
    var low := product % 0x1_0000_0000_0000_0000;
    var rate := low / ns;
    assert rate * ns <= low < (rate + 1) * ns;
    if product >= 0x1_0000_0000_0000_0000 {
      assert product >= low + 0x1_0000_0000_0000_0000;
    }
  }

  /** For 32 TiB it does not fit. */
  lemma ThroughputIsCut()
    ensures !RateIs(35184372088832, 1000000000, Throughput(35184372088832, 1000000000))
  {
    ThroughputExactly(35184372088832, 1000000000);
  }

  function Times3(s: seq<U64>): string
    requires |s| == 3
  {
    Listed(s, 3)
  }

  // The fixed pieces of the line, in order.
  const S0: string := "CXL_BENCH_JSON {\"status\":\"pass\",\"bytes\":"
  const S1: string := ",\"iterations\":3,\"write_seconds\":["
  const S2: string := "],\"read_seconds\":["
  const S3: string := "],\"write_mib_s_median\":"
  const S4: string := ",\"read_mib_s_median\":"
  const S5: string := ",\"random_ops\":"
  const S6: string := ",\"random_ns_per_load\":"
  const S7: string := ",\"checksum\":\""
  const S8: string := "\",\"verified\":true}\n"

  /** The line up to the second list. */
  function Head(r: BenchResult, bytes: U64): string
    requires Measured(r)
  {
    S0 + Dec(bytes) + S1 + Times3(r.write) + S2 + Times3(r.read)
  }

  /** And with its throughputs. */
  function Middle(r: BenchResult, bytes: U64): string
    requires Measured(r)
  {
    Head(r, bytes) + S3 + Milli(Throughput(bytes, Median(r.write))) + S4 + Milli(Throughput(bytes, Median(r.read)))
  }

  function ResultLine(r: BenchResult, bytes: U64, randomOps: U64): string
    requires Measured(r)
  {
    Middle(r, bytes) + S5 + Dec(randomOps) + S6 + Milli(r.random) + S7 + Hex(r.checksum) + S8
  }

  lemma SecondsFit(ns: U64)
    ensures |Seconds(ns)| <= 30
  {
    DecFits(ns / 1000000000);
  }

  lemma MilliFits(v: U64)
    ensures |Milli(v)| <= 24
  {
    DecFits(v / 1000);
  }

  lemma TimesFit(s: seq<U64>)
    requires |s| == 3
    ensures |Times3(s)| <= 92
  {
    SecondsFit(s[0]);
    SecondsFit(s[1]);
    SecondsFit(s[2]);
    assert |Listed(s, 2)| <= 61;
  }

  /** The line never reaches the end of the buffer. */
  lemma LineFits(r: BenchResult, bytes: U64, randomOps: U64)
    requires Measured(r)
    ensures |ResultLine(r, bytes, randomOps)| <= 600
  {
    DecFits(bytes);
    DecFits(randomOps);
    TimesFit(r.write);
    TimesFit(r.read);
    MilliFits(Throughput(bytes, Median(r.write)));
    MilliFits(Throughput(bytes, Median(r.read)));
    MilliFits(r.random);
  }

  method PrintHead(output: Output, r: BenchResult, bytes: U64)
    requires Measured(r) && output.Valid() && output.asked == ""
    modifies output, output.data
    ensures output.Valid() && output.asked == Head(r, bytes)
  {
    output.AppendText(S0);
    assert "" + S0 == S0;
    output.AppendU64(bytes);
    output.AppendText(S1);
    output.AppendTimes(r.write);
    output.AppendText(S2);
    output.AppendTimes(r.read);
  }

  method PrintMiddle(output: Output, r: BenchResult, bytes: U64)
    requires Measured(r) && output.Valid() && output.asked == Head(r, bytes)
    modifies output, output.data
    ensures output.Valid() && output.asked == Middle(r, bytes)
  {
    output.AppendText(S3);
    output.AppendMilli(Throughput(bytes, Median(r.write)));
    output.AppendText(S4);
    output.AppendMilli(Throughput(bytes, Median(r.read)));
  }

  method PrintTail(output: Output, r: BenchResult, randomOps: U64)
    requires output.Valid()
    modifies output, output.data
    ensures output.Valid()
    ensures output.asked == old(output.asked) + S5 + Dec(randomOps) + S6 + Milli(r.random) + S7 + Hex(r.checksum) + S8
  {
    output.AppendText(S5);
    output.AppendU64(randomOps);
    output.AppendText(S6);
    output.AppendMilli(r.random);
    output.AppendText(S7);
    output.AppendHex64(r.checksum);
    output.AppendText(S8);
  }

  // --- Reading the line ------------------------------------------------------------

  predicate Delimiter(c: char) {
    c == ',' || c == ']' || c == '\"'
  }

  /** The text up to the first delimiter. */
  function Token(text: string): (t: string)
    ensures |t| <= |text|
  {
    if text == "" || Delimiter(text[0]) then "" else [text[0]] + Token(text[1..])
  }

  /** The values that follow the names, one after the other, and the text after the last. */
  function Values(text: string, names: seq<string>): Option<(seq<string>, string)>
    decreases |names|
  {
    if names == [] then Some(([], text))
    else if !(names[0] <= text) then None
    else
      var rest := text[|names[0]|..];
      var found := Values(rest[|Token(rest)|..], names[1..]);
      if found.None? then None else Some(([Token(rest)] + found.value.0, found.value.1))
  }

  /** Each name followed by its value. */
  function Woven(names: seq<string>, values: seq<string>): string
    requires |names| == |values|
  {
    if names == [] then "" else names[0] + values[0] + Woven(names[1..], values[1..])
  }

  predicate Plain(value: string) {
    forall i :: 0 <= i < |value| ==> !Delimiter(value[i])
  }

  predicate Opens(text: string) {
    text != "" && Delimiter(text[0])
  }

  lemma {:induction false} TokenStops(value: string, after: string)
    requires Plain(value) && Opens(after)
    ensures Token(value + after) == value
  {
    if value == "" {
      assert value + after == after;
    } else {
      assert (value + after)[1..] == value[1..] + after;
      TokenStops(value[1..], after);
    }
  }

  lemma DropName(name: string, value: string, more: string)
    ensures name <= name + value + more && (name + value + more)[|name|..] == value + more
    ensures (value + more)[|value|..] == more
  {
  }

  lemma ReadOne(names: seq<string>, value: string, more: string)
    requires names != [] && Plain(value) && Opens(more)
    ensures var found := Values(more, names[1..]);
            Values(names[0] + value + more, names)
            == if found.None? then None else Some(([value] + found.value.0, found.value.1))
  {
    DropName(names[0], value, more);
    TokenStops(value, more);
  }

  lemma WovenOpens(names: seq<string>, values: seq<string>, end: string)
    requires |names| == |values| && Opens(end) && (names == [] || Opens(names[0]))
    ensures Opens(Woven(names, values) + end)
  {
  }

  lemma FirstAndRest(values: seq<string>)
    requires values != []
    ensures [values[0]] + values[1..] == values
  {
  }

  /** What is woven reads back, when names can be told from values. */
  lemma {:induction false} WovenReads(names: seq<string>, values: seq<string>, end: string)
    requires |names| == |values| && Opens(end)
    requires forall i :: 0 <= i < |values| ==> Plain(values[i])
    requires forall i :: 0 < i < |names| ==> Opens(names[i])
    ensures Values(Woven(names, values) + end, names) == Some((values, end))
    decreases |names|
  {
    if names == [] {
      assert Woven(names, values) + end == end;
    } else {
      var more := Woven(names[1..], values[1..]) + end;
      assert Woven(names, values) + end == names[0] + values[0] + more;
      WovenOpens(names[1..], values[1..], end);
      WovenReads(names[1..], values[1..], end);
      ReadOne(names, values[0], more);
      FirstAndRest(values);
    }
  }

  lemma {:induction false} WovenSnoc(names: seq<string>, values: seq<string>, name: string, value: string)
    requires |names| == |values|
    ensures Woven(names + [name], values + [value]) == Woven(names, values) + name + value
  {
    if names == [] {
      assert Woven([name], [value]) == name + value + Woven([], []);
    } else {
      WovenSnoc(names[1..], values[1..], name, value);
      assert (names + [name])[1..] == names[1..] + [name] && (values + [value])[1..] == values[1..] + [value];
    }
  }

  const HEAD_NAMES: seq<string> := [
    "CXL_BENCH_JSON {\"status\":\"pass\",\"bytes\":", ",\"iterations\":",
    ",\"write_seconds\":[", ",", ",", "],\"read_seconds\":[", ",", ","]

  const TAIL_NAMES: seq<string> := [
    "],\"write_mib_s_median\":", ",\"read_mib_s_median\":", ",\"random_ops\":", ",\"random_ns_per_load\":",
    ",\"checksum\":\""]

  function HeadValues(r: BenchResult, bytes: U64): seq<string>
    requires Measured(r)
  {
    [Dec(bytes), "3", Seconds(r.write[0]), Seconds(r.write[1]), Seconds(r.write[2]),
     Seconds(r.read[0]), Seconds(r.read[1]), Seconds(r.read[2])]
  }

  function TailValues(r: BenchResult, bytes: U64, randomOps: U64): seq<string>
    requires Measured(r)
  {
    [Milli(Throughput(bytes, Median(r.write))), Milli(Throughput(bytes, Median(r.read))), Dec(randomOps),
     Milli(r.random), Hex(r.checksum)]
  }

  lemma TwoMore(names: seq<string>, values: seq<string>, n1: string, v1: string, n2: string, v2: string)
    requires |names| == |values|
    ensures Woven(names + [n1, n2], values + [v1, v2]) == Woven(names, values) + n1 + v1 + n2 + v2
  {
    WovenSnoc(names, values, n1, v1);
    WovenSnoc(names + [n1], values + [v1], n2, v2);
    assert names + [n1] + [n2] == names + [n1, n2] && values + [v1] + [v2] == values + [v1, v2];
  }

  lemma Join5(w: string, n: string, a: string, b: string, c: string)
    ensures w + n + a + "," + b + "," + c == w + n + (a + "," + b + "," + c)
  {
  }

  lemma ThreeMore(names: seq<string>, values: seq<string>, n: string, a: string, b: string, c: string)
    requires |names| == |values|
    ensures Woven(names + [n, ",", ","], values + [a, b, c]) == Woven(names, values) + n + (a + "," + b + "," + c)
  {
    WovenSnoc(names, values, n, a);
    TwoMore(names + [n], values + [a], ",", b, ",", c);
    assert names + [n] + [",", ","] == names + [n, ",", ","] && values + [a] + [b, c] == values + [a, b, c];
    Join5(Woven(names, values), n, a, b, c);
  }

  lemma HeadShape(n0: string, n1: string, n2: string, n3: string, d: string, e: string, x: seq<string>, y: seq<string>)
    requires |x| == 3 && |y| == 3
    ensures Woven([n0, n1, n2, ",", ",", n3, ",", ","], [d, e, x[0], x[1], x[2], y[0], y[1], y[2]])
            == n0 + d + (n1 + e + n2) + (x[0] + "," + x[1] + "," + x[2]) + n3 + (y[0] + "," + y[1] + "," + y[2])
  {
    TwoMore([], [], n0, d, n1, e);
    assert [] + [n0, n1] == [n0, n1] && [] + [d, e] == [d, e];
    ThreeMore([n0, n1], [d, e], n2, x[0], x[1], x[2]);
    var ns, vs := [n0, n1] + [n2, ",", ","], [d, e] + [x[0], x[1], x[2]];
    ThreeMore(ns, vs, n3, y[0], y[1], y[2]);
    assert ns + [n3, ",", ","] == [n0, n1, n2, ",", ",", n3, ",", ","];
    assert vs + [y[0], y[1], y[2]] == [d, e, x[0], x[1], x[2], y[0], y[1], y[2]];
    assert Woven([], []) + n0 + d + n1 + e + n2 == n0 + d + (n1 + e + n2);
  }

  lemma FourMore(names: seq<string>, values: seq<string>, n1: string, v1: string, n2: string, v2: string,
                 n3: string, v3: string, n4: string, v4: string)
    requires |names| == |values|
    ensures Woven(names + [n1, n2, n3, n4], values + [v1, v2, v3, v4])
            == Woven(names, values) + n1 + v1 + n2 + v2 + n3 + v3 + n4 + v4
  {
    TwoMore(names, values, n1, v1, n2, v2);
    TwoMore(names + [n1, n2], values + [v1, v2], n3, v3, n4, v4);
    assert names + [n1, n2] + [n3, n4] == names + [n1, n2, n3, n4];
    assert values + [v1, v2] + [v3, v4] == values + [v1, v2, v3, v4];
  }

  lemma FiveMore(names: seq<string>, values: seq<string>, n: seq<string>, v: seq<string>)
    requires |names| == |values| && |n| == 5 && |v| == 5
    ensures Woven(names + n, values + v)
            == Woven(names, values) + n[0] + v[0] + n[1] + v[1] + n[2] + v[2] + n[3] + v[3] + n[4] + v[4]
  {
    var n4, v4 := names + [n[0], n[1], n[2], n[3]], values + [v[0], v[1], v[2], v[3]];
    FourMore(names, values, n[0], v[0], n[1], v[1], n[2], v[2], n[3], v[3]);
    WovenSnoc(n4, v4, n[4], v[4]);
    LastOfFive(names, n);
    LastOfFive(values, v);
  }

  lemma LastOfFive(a: seq<string>, n: seq<string>)
    requires |n| == 5
    ensures a + [n[0], n[1], n[2], n[3]] + [n[4]] == a + n
  {
  }

  lemma ListedThree(s: seq<U64>, a: string, b: string, c: string)
    requires |s| == 3 && a == Seconds(s[0]) && b == Seconds(s[1]) && c == Seconds(s[2])
    ensures Times3(s) == a + "," + b + "," + c
  {
    assert Listed(s, 1) == a;
    assert Listed(s, 2) == a + "," + b;
  }

  lemma HeadWoven(r: BenchResult, bytes: U64)
    requires Measured(r)
    ensures Woven(HEAD_NAMES, HeadValues(r, bytes)) == Head(r, bytes)
  {
    var v := HeadValues(r, bytes);
    HeadShape(HEAD_NAMES[0], HEAD_NAMES[1], HEAD_NAMES[2], HEAD_NAMES[5], v[0], v[1], v[2..5], v[5..8]);
    ListedThree(r.write, v[2], v[3], v[4]);
    ListedThree(r.read, v[5], v[6], v[7]);
    HeadPieces();
    assert v == [v[0], v[1], v[2], v[3], v[4], v[5], v[6], v[7]];
  }

  lemma HeadPieces()
    ensures S0 == HEAD_NAMES[0] && S1 == HEAD_NAMES[1] + "3" + HEAD_NAMES[2] && S2 == HEAD_NAMES[5]
  {
  }

  lemma TailPieces()
    ensures S3 == TAIL_NAMES[0] && S4 == TAIL_NAMES[1] && S5 == TAIL_NAMES[2] && S6 == TAIL_NAMES[3] && S7 == TAIL_NAMES[4]
  {
  }

  lemma LineWoven(r: BenchResult, bytes: U64, randomOps: U64)
    requires Measured(r)
    ensures Woven(HEAD_NAMES + TAIL_NAMES, HeadValues(r, bytes) + TailValues(r, bytes, randomOps)) + S8
            == ResultLine(r, bytes, randomOps)
  {
    HeadWoven(r, bytes);
    FiveMore(HEAD_NAMES, HeadValues(r, bytes), TAIL_NAMES, TailValues(r, bytes, randomOps));
    TailPieces();
  }

  lemma DigitsArePlain(hex: bool, text: string)
    requires AllDigits(hex, text)
    ensures Plain(text)
  {
  }

  lemma DecIsPlain(v: nat)
    ensures Plain(Dec(v))
  {
    DecValue(v);
    DigitsArePlain(false, Dec(v));
  }

  lemma FixedIsPlain(hex: bool, v: nat, k: nat)
    requires v < Power(hex, k)
    ensures Plain(Fixed(hex, v, k))
  {
    FixedValue(hex, v, k);
    DigitsArePlain(hex, Fixed(hex, v, k));
  }

  lemma JoinIsPlain(a: string, c: char, b: string)
    requires Plain(a) && Plain(b) && !Delimiter(c)
    ensures Plain(a + [c] + b)
  {
  }

  lemma SecondsArePlain(v: nat)
    ensures Plain(Seconds(v))
  {
    Powers();
    DecIsPlain(v / 1000000000);
    FixedIsPlain(false, v % 1000000000, 9);
    JoinIsPlain(Dec(v / 1000000000), '.', Fixed(false, v % 1000000000, 9));
  }

  lemma MilliIsPlain(v: nat)
    ensures Plain(Milli(v))
  {
    Powers();
    DecIsPlain(v / 1000);
    FixedIsPlain(false, v % 1000, 3);
    JoinIsPlain(Dec(v / 1000), '.', Fixed(false, v % 1000, 3));
  }

  lemma HexIsPlain(v: U64)
    ensures Plain(Hex(v))
  {
    Powers();
    FixedIsPlain(true, v, 16);
    JoinIsPlain("0", 'x', Fixed(true, v, 16));
    assert "0" + ['x'] == "0x";
  }

  /** A decimal fraction with so many places denotes `v` units of `1 / scale`. */
  predicate PointReads(text: string, places: nat, scale: nat, v: nat) {
    |text| >= places + 2
    && var n := |text| - places - 1;
       text[n] == '.' && AllDigits(false, text[..n]) && AllDigits(false, text[n + 1..])
       && ValueOf(false, text[..n]) * scale + ValueOf(false, text[n + 1..]) == v
  }

  predicate TimesRead(a: string, b: string, c: string, s: seq<U64>)
    requires |s| == 3
  {
    PointReads(a, 9, 1000000000, s[0]) && PointReads(b, 9, 1000000000, s[1]) && PointReads(c, 9, 1000000000, s[2])
  }

  predicate NumeralReads(text: string, v: nat) {
    IsNumeral(text) && NumeralValue(text) == v
  }

  lemma PointReadsBack(v: U64)
    ensures PointReads(Seconds(v), 9, 1000000000, v) && PointReads(Milli(v), 3, 1000, v)
  {
    FixedPointIsExact(v);
    PointShape(Dec(v / 1000000000), Fixed(false, v % 1000000000, 9));
    PointShape(Dec(v / 1000), Fixed(false, v % 1000, 3));
  }

  lemma PointShape(whole: string, part: string)
    ensures var text := whole + "." + part;
            text[|whole|] == '.' && text[..|whole|] == whole && text[|whole| + 1..] == part
  {
  }

  predicate HeadRead(v: seq<string>, r: BenchResult, bytes: U64)
    requires Measured(r) && |v| == 8
  {
    NumeralReads(v[0], bytes) && v[1] == "3" && TimesRead(v[2], v[3], v[4], r.write) && TimesRead(v[5], v[6], v[7], r.read)
  }

  predicate TailRead(v: seq<string>, r: BenchResult, bytes: U64, randomOps: U64)
    requires Measured(r) && |v| == 5
  {
    && PointReads(v[0], 3, 1000, Throughput(bytes, Median(r.write)))
    && PointReads(v[1], 3, 1000, Throughput(bytes, Median(r.read)))
    && NumeralReads(v[2], randomOps) && PointReads(v[3], 3, 1000, r.random)
    && "0x" <= v[4] && NumeralReads(v[4], r.checksum)
  }

  /** The line reads as the fields: after each name of the line, up to the next, its value.
      Durations are in seconds with nine places, rates and times per load have three. */
  predicate ReadsAs(line: string, r: BenchResult, bytes: U64, randomOps: U64)
    requires Measured(r)
  {
    var found := Values(line, HEAD_NAMES + TAIL_NAMES);
    && found.Some? && |found.value.0| == 13 && found.value.1 == "\",\"verified\":true}\n"
    && HeadRead(found.value.0[..8], r, bytes) && TailRead(found.value.0[8..], r, bytes, randomOps)
  }

  lemma LineReadsBack(r: BenchResult, bytes: U64, randomOps: U64)
    requires Measured(r)
    ensures ReadsAs(ResultLine(r, bytes, randomOps), r, bytes, randomOps)
  {
    var head, tail := HeadValues(r, bytes), TailValues(r, bytes, randomOps);
    LineWoven(r, bytes, randomOps);
    HeadReads(r, bytes);
    TailReads(r, bytes, randomOps);
    PartsRead(head, tail, ResultLine(r, bytes, randomOps), r, bytes, randomOps);
  }

  lemma PartsRead(head: seq<string>, tail: seq<string>, line: string, r: BenchResult, bytes: U64, randomOps: U64)
    requires Measured(r) && |head| == 8 && |tail| == 5 && AllPlain(head) && AllPlain(tail)
    requires line == Woven(HEAD_NAMES + TAIL_NAMES, head + tail) + S8
    requires HeadRead(head, r, bytes) && TailRead(tail, r, bytes, randomOps)
    ensures ReadsAs(line, r, bytes, randomOps)
  {
    NamesOpen();
    WovenReads(HEAD_NAMES + TAIL_NAMES, head + tail, S8);
    assert (head + tail)[..8] == head && (head + tail)[8..] == tail;
  }

  lemma NamesOpen()
    ensures Opens(S8) && forall i :: 0 < i < |HEAD_NAMES + TAIL_NAMES| ==> Opens((HEAD_NAMES + TAIL_NAMES)[i])
  {
  }

  lemma SecondsRead(v: U64)
    ensures Plain(Seconds(v)) && PointReads(Seconds(v), 9, 1000000000, v)
  {
    SecondsArePlain(v);
    PointReadsBack(v);
  }

  /** Three durations are plain and read back. */
  lemma ThreeRead(s: seq<U64>, a: string, b: string, c: string)
    requires |s| == 3 && a == Seconds(s[0]) && b == Seconds(s[1]) && c == Seconds(s[2])
    ensures Plain(a) && Plain(b) && Plain(c) && TimesRead(a, b, c, s)
  {
    SecondsRead(s[0]);
    SecondsRead(s[1]);
    SecondsRead(s[2]);
  }

  lemma MilliReads(v: U64)
    ensures Plain(Milli(v)) && PointReads(Milli(v), 3, 1000, v)
  {
    MilliIsPlain(v);
    PointReadsBack(v);
  }

  lemma DecReads(v: U64)
    ensures Plain(Dec(v)) && NumeralReads(Dec(v), v)
  {
    DecIsPlain(v);
    DecimalReadsBack(v);
  }

  lemma HexReads(v: U64)
    ensures Plain(Hex(v)) && "0x" <= Hex(v) && NumeralReads(Hex(v), v)
  {
    HexIsPlain(v);
    HexadecimalReadsBack(v);
  }

  predicate AllPlain(values: seq<string>) {
    forall i :: 0 <= i < |values| ==> Plain(values[i])
  }

  lemma HeadReads(r: BenchResult, bytes: U64)
    requires Measured(r)
    ensures AllPlain(HeadValues(r, bytes)) && HeadRead(HeadValues(r, bytes), r, bytes)
  {
    var v := HeadValues(r, bytes);
    DecReads(bytes);
    ThreeRead(r.write, v[2], v[3], v[4]);
    ThreeRead(r.read, v[5], v[6], v[7]);
  }

  lemma FivePlain(v: seq<string>)
    requires |v| == 5 && Plain(v[0]) && Plain(v[1]) && Plain(v[2]) && Plain(v[3]) && Plain(v[4])
    ensures AllPlain(v)
  {
  }

  lemma FiveRead(v: seq<string>, r: BenchResult, bytes: U64, randomOps: U64, w: U64, x: U64)
    requires Measured(r) && w == Throughput(bytes, Median(r.write)) && x == Throughput(bytes, Median(r.read))
    requires |v| == 5 && v[0] == Milli(w) && v[1] == Milli(x) && v[2] == Dec(randomOps) && v[3] == Milli(r.random)
    requires v[4] == Hex(r.checksum)
    ensures AllPlain(v) && TailRead(v, r, bytes, randomOps)
  {
    MilliReads(w);
    MilliReads(x);
    DecReads(randomOps);
    MilliReads(r.random);
    HexReads(r.checksum);
    FivePlain(v);
  }

  lemma TailReads(r: BenchResult, bytes: U64, randomOps: U64)
    requires Measured(r)
    ensures AllPlain(TailValues(r, bytes, randomOps)) && TailRead(TailValues(r, bytes, randomOps), r, bytes, randomOps)
  {
    FiveRead(TailValues(r, bytes, randomOps), r, bytes, randomOps,
             Throughput(bytes, Median(r.write)), Throughput(bytes, Median(r.read)));
  }

  /** What is written is the whole line, and reads back as the fields it was made from. */
  method PrintResult(r: BenchResult, bytes: U64, randomOps: U64) returns (written: string)
    requires Measured(r)
    ensures written == ResultLine(r, bytes, randomOps)
    ensures ReadsAs(written, r, bytes, randomOps)
  {
    var output := new Output();
    PrintHead(output, r, bytes);
    PrintMiddle(output, r, bytes);
    PrintTail(output, r, randomOps);
    LineFits(r, bytes, randomOps);
    LineReadsBack(r, bytes, randomOps);
    written := output.data[..output.length];
  }
}
