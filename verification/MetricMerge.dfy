/** Merging the metrics of several processes into one. */
module MetricMerge {
  import opened Options
  import opened Permutations

  const BINS: nat := 576

  /** The fields that are summed. */
  datatype Counter = Calls | DurationSamples | Named(name: string)

  function Get(counters: map<Counter, nat>, c: Counter): nat {
    if c in counters then counters[c] else 0
  }

  /** A metric read from an arena; a compact one has no bins. */
  datatype Metric = Metric(counters: map<Counter, nat>, min: nat, max: nat, bins: Option<seq<nat>>)

  predicate Wellformed(m: Metric) {
    DurationSamples in m.counters && (m.bins.Some? ==> |m.bins.value| == BINS)
  }

  predicate Nonempty(m: Metric) {
    Wellformed(m) && Get(m.counters, Calls) > 0
  }

  /** A metric with at least one call. */
  type Source = m: Metric | Nonempty(m) witness Metric(map[Calls := 1, DurationSamples := 0], 0, 0, None)

  predicate Sampled(m: Metric) {
    Get(m.counters, DurationSamples) > 0
  }

  /** The metric being built: fields appear as they are first set. */
  datatype Total = Total(counters: map<Counter, nat>, min: Option<nat>, max: Option<nat>, bins: Option<seq<nat>>)

  const Start: Total := Total(map[], None, None, None)

  function Lower(a: nat, b: nat): nat {
    if a <= b then a else b
  }

  function Upper(a: nat, b: nat): nat {
    if a <= b then b else a
  }

  function AddCounters(t: map<Counter, nat>, s: map<Counter, nat>): map<Counter, nat> {
    map k | k in t.Keys + s.Keys :: Get(t, k) + Get(s, k)
  }

  function BinAt(bins: seq<nat>, i: nat): nat {
    if i < |bins| then bins[i] else 0
  }

  function AddBins(t: seq<nat>, s: seq<nat>): (r: seq<nat>)
    ensures |r| == BINS && forall i :: 0 <= i < BINS ==> r[i] == BinAt(t, i) + BinAt(s, i)
  {
    seq(BINS, i requires 0 <= i < BINS => BinAt(t, i) + BinAt(s, i))
  }

  function MergeBins(had: bool, t: Option<seq<nat>>, s: Option<seq<nat>>): Option<seq<nat>> {
    if !had then s
    else if t.None? || s.None? then None
    else Some(AddBins(t.value, s.value))
  }

  function MergeMin(prior: nat, t: Option<nat>, s: Metric): Option<nat> {
    if !Sampled(s) then t
    else if prior == 0 || t.None? then Some(s.min)
    else Some(Lower(t.value, s.min))
  }

  function MergeMax(t: Option<nat>, s: Metric): Option<nat> {
    if !Sampled(s) then t else Some(Upper(if t.Some? then t.value else 0, s.max))
  }

  /** The effect of adding one metric. */
  function Add(t: Total, s: Metric): Total {
    Total(
      AddCounters(t.counters, s.counters),
      MergeMin(Get(t.counters, DurationSamples), t.min, s),
      MergeMax(t.max, s),
      MergeBins(Get(t.counters, Calls) > 0, t.bins, s.bins))
  }

  function Merge(ms: seq<Metric>): Total {
    if ms == [] then Start else Add(Merge(ms[..|ms| - 1]), ms[|ms| - 1])
  }

  // --- The dictionary in place -----------------------------------------------------

  class Target {
    var counters: map<Counter, nat>
    var min: Option<nat>
    var max: Option<nat>
    var bins: Option<seq<nat>>

    function View(): Total
      reads this
    {
      Total(counters, min, max, bins)
    }

    /** Bins that are there are complete, and samples leave a minimum. */
    ghost predicate Valid()
      reads this
    {
      && (bins.Some? ==> |bins.value| == BINS)
      && (Get(counters, DurationSamples) > 0 ==> min.Some?)
    }

    constructor ()
      ensures Valid() && View() == Start
    {
      counters, min, max, bins := map[], None, None, None;
    }

    method AddMetric(source: Metric)
      requires Valid() && Wellformed(source)
      modifies this
      ensures Valid() && View() == Add(old(View()), source)
    {
      var had := Get(counters, Calls) > 0;
      counters := AddCounters(counters, source.counters);
      if !had {
        bins := source.bins;
      } else if bins.None? || source.bins.None? {
        bins := None;
      } else {
        var sum := SumBins(bins.value, source.bins.value);
        bins := Some(sum);
      }
      if Get(source.counters, DurationSamples) > 0 {
        var prior := counters[DurationSamples] - source.counters[DurationSamples];
        min := if prior == 0 then Some(source.min) else Some(Lower(min.value, source.min));
        max := Some(Upper(if max.Some? then max.value else 0, source.max));
      }
    }
  }

  method SumBins(target: seq<nat>, source: seq<nat>) returns (sum: seq<nat>)
    requires |target| == BINS && |source| == BINS
    ensures sum == AddBins(target, source)
  {
    sum := target;
    var i := 0;
    while i < |source|
      invariant 0 <= i <= |source| && |sum| == BINS
      invariant forall k :: 0 <= k < BINS ==> sum[k] == target[k] + if k < i then source[k] else 0
    {
      sum := sum[i := sum[i] + source[i]];
      i := i + 1;
    }
  }

  // --- Order does not matter -------------------------------------------------------

  lemma AddedIs(t: map<Counter, nat>, s: map<Counter, nat>, k: Counter)
    ensures k in AddCounters(t, s) <==> k in t || k in s
    ensures Get(AddCounters(t, s), k) == Get(t, k) + Get(s, k)
  {
  }

  lemma SameCounters(a: map<Counter, nat>, b: map<Counter, nat>)
    requires forall k :: (k in a <==> k in b) && Get(a, k) == Get(b, k)
    ensures a == b
  {
  }

  lemma CountersCommute(t: map<Counter, nat>, x: map<Counter, nat>, y: map<Counter, nat>)
    ensures AddCounters(AddCounters(t, x), y) == AddCounters(AddCounters(t, y), x)
  {
    var a, b := AddCounters(AddCounters(t, x), y), AddCounters(AddCounters(t, y), x);
    forall k: Counter
      ensures (k in a <==> k in b) && Get(a, k) == Get(b, k)
    {
      AddedIs(t, x, k);
      AddedIs(t, y, k);
      AddedIs(AddCounters(t, x), y, k);
      AddedIs(AddCounters(t, y), x, k);
    }
    SameCounters(a, b);
  }

  lemma BinsCommute(had: bool, t: Option<seq<nat>>, x: Source, y: Source)
    ensures MergeBins(true, MergeBins(had, t, x.bins), y.bins) == MergeBins(true, MergeBins(had, t, y.bins), x.bins)
  {
    var a := MergeBins(true, MergeBins(had, t, x.bins), y.bins);
    var b := MergeBins(true, MergeBins(had, t, y.bins), x.bins);
    if a.Some? && b.Some? {
      assert forall i :: 0 <= i < BINS ==> a.value[i] == b.value[i];
      assert a.value == b.value;
    }
  }

  lemma AddCommutes(t: Total, x: Source, y: Source)
    ensures Add(Add(t, x), y) == Add(Add(t, y), x)
  {
    CountersCommute(t.counters, x.counters, y.counters);
    BinsCommute(Get(t.counters, Calls) > 0, t.bins, x, y);
  }

  function AddSource(): (Total, Source) -> Total {
    (t: Total, s: Source) => Add(t, s)
  }

  lemma {:induction false} MergeIsFold(ms: seq<Source>)
    ensures Merge(ms) == Fold(AddSource(), Start, ms)
  {
    if ms != [] {
      MergeIsFold(ms[..|ms| - 1]);
    }
  }

  /** However the metrics are ordered, the total is the same. */
  lemma MergeIgnoresOrder(a: seq<Source>, b: seq<Source>)
    requires multiset(a) == multiset(b)
    ensures Merge(a) == Merge(b)
  {
    forall t, x, y
      ensures AddSource()(AddSource()(t, x), y) == AddSource()(AddSource()(t, y), x)
    {
      AddCommutes(t, x, y);
    }
    FoldPermutation(AddSource(), Start, a, b);
    MergeIsFold(a);
    MergeIsFold(b);
  }

  // --- What the total is -----------------------------------------------------------

  /** The sum of a counter over the metrics. */
  function Sum(ms: seq<Metric>, c: Counter): nat {
    if ms == [] then 0 else Sum(ms[..|ms| - 1], c) + Get(ms[|ms| - 1].counters, c)
  }

  function BinSum(ms: seq<Metric>, i: nat): nat {
    if ms == [] then 0
    else BinSum(ms[..|ms| - 1], i)
         + if ms[|ms| - 1].bins.Some? then BinAt(ms[|ms| - 1].bins.value, i) else 0
  }

  predicate SomeCompact(ms: seq<Metric>) {
    exists i :: 0 <= i < |ms| && ms[i].bins.None?
  }

  predicate SomeSampled(ms: seq<Metric>) {
    exists i :: 0 <= i < |ms| && Sampled(ms[i])
  }

  /** `low` and `high` are the extremes of the sampled metrics, and of no others. */
  predicate Extremes(ms: seq<Metric>, low: nat, high: nat) {
    && (forall i :: 0 <= i < |ms| && Sampled(ms[i]) ==> low <= ms[i].min && ms[i].max <= high)
    && (exists i :: 0 <= i < |ms| && Sampled(ms[i]) && ms[i].min == low)
    && exists i :: 0 <= i < |ms| && Sampled(ms[i]) && ms[i].max == high
  }

  ghost predicate CountersAre(ms: seq<Metric>, t: Total) {
    forall c :: (c in t.counters <==> exists i :: 0 <= i < |ms| && c in ms[i].counters) && Get(t.counters, c) == Sum(ms, c)
  }

  predicate ExtremesAre(ms: seq<Metric>, t: Total) {
    if SomeSampled(ms) then t.min.Some? && t.max.Some? && Extremes(ms, t.min.value, t.max.value)
    else t.min.None? && t.max.None?
  }

  predicate BinsAre(ms: seq<Metric>, t: Total) {
    if ms == [] || SomeCompact(ms) then t.bins.None?
    else t.bins.Some? && |t.bins.value| == 576 && forall i :: 0 <= i < 576 ==> t.bins.value[i] == BinSum(ms, i)
  }

  lemma {:induction false} MergedCounters(ms: seq<Metric>)
    ensures CountersAre(ms, Merge(ms))
  {
    if ms != [] {
      var init, last := ms[..|ms| - 1], ms[|ms| - 1];
      MergedCounters(init);
      forall c: Counter
        ensures c in Merge(ms).counters <==> exists i :: 0 <= i < |ms| && c in ms[i].counters
        ensures Get(Merge(ms).counters, c) == Sum(ms, c)
      {
        AddedIs(Merge(init).counters, last.counters, c);
        assert c in Merge(init).counters <==> exists i :: 0 <= i < |init| && c in init[i].counters;
        if i :| 0 <= i < |ms| && c in ms[i].counters {
          assert i < |init| ==> init[i] == ms[i];
        }
        if i :| 0 <= i < |init| && c in init[i].counters {
          assert ms[i] == init[i];
        }
      }
    }
  }

  lemma ExtremesSnoc(init: seq<Metric>, last: Metric, low: nat, high: nat)
    requires Extremes(init, low, high) && Sampled(last)
    ensures Extremes(init + [last], Lower(low, last.min), Upper(high, last.max))
  {
    var ms := init + [last];
    var i :| 0 <= i < |init| && Sampled(init[i]) && init[i].min == low;
    var j :| 0 <= j < |init| && Sampled(init[j]) && init[j].max == high;
    assert ms[i] == init[i] && ms[j] == init[j] && ms[|init|] == last;
    assert Sampled(ms[if low <= last.min then i else |init|]);
    assert Sampled(ms[if high <= last.max then |init| else j]);
  }

  lemma ExtremesSame(init: seq<Metric>, last: Metric, low: nat, high: nat)
    requires Extremes(init, low, high) && !Sampled(last)
    ensures Extremes(init + [last], low, high)
  {
    var ms := init + [last];
    var i :| 0 <= i < |init| && Sampled(init[i]) && init[i].min == low;
    var j :| 0 <= j < |init| && Sampled(init[j]) && init[j].max == high;
    assert ms[i] == init[i] && ms[j] == init[j];
  }

  lemma {:induction false} SamplesCounted(ms: seq<Metric>)
    ensures Sum(ms, DurationSamples) > 0 <==> SomeSampled(ms)
  {
    if ms != [] {
      var init := ms[..|ms| - 1];
      SamplesCounted(init);
      assert forall i :: 0 <= i < |init| ==> init[i] == ms[i];
      if SomeSampled(init) {
        var i :| 0 <= i < |init| && Sampled(init[i]);
        assert Sampled(ms[i]);
      }
    }
  }

  lemma SampledSnoc(init: seq<Metric>, last: Metric)
    ensures SomeSampled(init + [last]) <==> SomeSampled(init) || Sampled(last)
  {
    var ms := init + [last];
    assert ms[|init|] == last;
    if SomeSampled(init) {
      var i :| 0 <= i < |init| && Sampled(init[i]);
      assert Sampled(ms[i]);
    }
  }

  lemma FirstExtremes(init: seq<Metric>, last: Metric)
    requires !SomeSampled(init) && Sampled(last)
    ensures Extremes(init + [last], last.min, last.max)
  {
    var ms := init + [last];
    assert ms[|init|] == last;
  }

  lemma ExtremesStep(init: seq<Metric>, last: Metric, t: Total)
    requires ExtremesAre(init, t) && (Get(t.counters, DurationSamples) > 0 <==> SomeSampled(init))
    ensures ExtremesAre(init + [last], Add(t, last))
  {
    SampledSnoc(init, last);
    if SomeSampled(init) && Sampled(last) {
      ExtremesSnoc(init, last, t.min.value, t.max.value);
    } else if SomeSampled(init) {
      ExtremesSame(init, last, t.min.value, t.max.value);
    } else if Sampled(last) {
      FirstExtremes(init, last);
    }
  }

  lemma {:induction false} MergedExtremes(ms: seq<Metric>)
    ensures ExtremesAre(ms, Merge(ms))
  {
    if ms != [] {
      var init, last := ms[..|ms| - 1], ms[|ms| - 1];
      assert ms == init + [last];
      MergedExtremes(init);
      CounterIs(init, DurationSamples);
      SamplesCounted(init);
      ExtremesStep(init, last, Merge(init));
    }
  }

  lemma CounterIs(ms: seq<Metric>, c: Counter)
    ensures Get(Merge(ms).counters, c) == Sum(ms, c)
  {
  }

  lemma {:induction false} CallsCounted(ms: seq<Source>)
    ensures Sum(ms, Calls) > 0 <==> ms != []
  {
  }

  lemma CompactSnoc(init: seq<Metric>, last: Metric)
    ensures SomeCompact(init + [last]) <==> SomeCompact(init) || last.bins.None?
  {
    var ms := init + [last];
    assert ms[|init|] == last;
    if SomeCompact(init) {
      var i :| 0 <= i < |init| && init[i].bins.None?;
      assert ms[i].bins.None?;
    }
  }

  lemma BinSumSnoc(init: seq<Metric>, last: Metric, i: nat)
    requires last.bins.Some?
    ensures BinSum(init + [last], i) == BinSum(init, i) + BinAt(last.bins.value, i)
  {
  }

  lemma BinsStep(init: seq<Metric>, last: Metric, t: Total)
    requires Wellformed(last) && BinsAre(init, t) && (Get(t.counters, Calls) > 0 <==> init != [])
    ensures BinsAre(init + [last], Add(t, last))
  {
    CompactSnoc(init, last);
    if !SomeCompact(init + [last]) {
      forall i | 0 <= i < BINS
        ensures Add(t, last).bins.value[i] == BinSum(init + [last], i)
      {
        BinSumSnoc(init, last, i);
      }
    }
  }

  lemma {:induction false} MergedBins(ms: seq<Source>)
    ensures BinsAre(ms, Merge(ms))
  {
    if ms != [] {
      var init, last := ms[..|ms| - 1], ms[|ms| - 1];
      assert ms == init + [last];
      MergedBins(init);
      CounterIs(init, Calls);
      CallsCounted(init);
      BinsStep(init, last, Merge(init));
    }
  }

  /** Of metrics with calls: the counters are sums, the extremes are those of the sampled
      ones, and the bins are sums unless some metric is compact. */
  lemma MergeIsTotal(ms: seq<Source>)
    ensures CountersAre(ms, Merge(ms)) && ExtremesAre(ms, Merge(ms)) && BinsAre(ms, Merge(ms))
  {
    MergedCounters(ms);
    MergedExtremes(ms);
    MergedBins(ms);
  }
}
