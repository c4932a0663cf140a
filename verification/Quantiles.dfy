/** Percentiles read off a logarithmic histogram. */
module Quantiles {
  import opened Options

  /** Bins may be missing, explicitly absent in a compact metric, or there. */
  datatype Histogram = Missing | Compact | Bins(counts: seq<nat>)

  datatype Metric = Metric(samples: nat, histogram: Histogram, underflow: nat, overflow: nat, saturation: nat)

  // --- Ranks and places ------------------------------------------------------------

  function Total(counts: seq<nat>): nat {
    if counts == [] then 0 else Total(counts[..|counts| - 1]) + counts[|counts| - 1]
  }

  lemma TotalSnoc(counts: seq<nat>, i: nat)
    requires i < |counts|
    ensures Total(counts[..i + 1]) == Total(counts[..i]) + counts[i]
  {
    assert counts[..i + 1][..i] == counts[..i];
  }

  lemma {:induction false} TotalGrows(counts: seq<nat>, i: nat, j: nat)
    requires i <= j <= |counts|
    ensures Total(counts[..i]) <= Total(counts[..j])
    decreases j
  {
    if i < j {
      TotalSnoc(counts, j - 1);
      TotalGrows(counts, i, j - 1);
    }
  }

  /** The nearest rank of a percentage: at least one. */
  function Rank(n: nat, percent: nat): (r: nat)
    ensures r >= 1
  {
    if n == 0 || percent == 0 then 1 else (n * percent + 99) / 100
  }

  /** Where the element of a rank lies: -1 is below the bins, their number above. */
  predicate IsAt(counts: seq<nat>, underflow: nat, rank: nat, place: int) {
    && -1 <= place <= |counts|
    && (place >= 0 ==> underflow + Total(counts[..place]) < rank)
    && (place < |counts| ==> rank <= underflow + Total(counts[..place + 1]))
  }

  /** A later rank lies no earlier. */
  lemma PlacesInOrder(counts: seq<nat>, underflow: nat, r: nat, p: int, r': nat, p': int)
    requires IsAt(counts, underflow, r, p) && IsAt(counts, underflow, r', p') && r <= r'
    ensures p <= p'
  {
    if p' < p {
      TotalGrows(counts, p' + 1, p);
    }
  }

  /** The scan for one rank. */
  method FindPlace(counts: seq<nat>, underflow: nat, rank: nat) returns (place: int)
    ensures IsAt(counts, underflow, rank, place)
  {
    if rank <= underflow {
      return -1;
    }
    var cursor := underflow;
    var i := 0;
    while i < |counts|
      invariant 0 <= i <= |counts|
      invariant cursor == underflow + Total(counts[..i]) < rank
    {
      TotalSnoc(counts, i);
      cursor := cursor + counts[i];
      if rank <= cursor {
        return i;
      }
      i := i + 1;
    }
    return |counts|;
  }

  // --- Representatives -------------------------------------------------------------

  const GAMMA: real := 1.02 / 0.98

  function Power(i: nat): (p: real)
    ensures p >= 1.0
  {
    if i == 0 then 1.0
    else
      var p := Power(i - 1);
      assert p * GAMMA >= p * 1.0;
      p * GAMMA
  }

  /** The lower edge of a bin, in nanoseconds. */
  function Edge(i: nat): real {
    100.0 * Power(i)
  }

  function Representative(i: nat): real {
    Edge(i) * 1.02
  }

  /** The law of the edges: they start at 100 ns, and the midpoint that is 2% above one edge
      is 2% below the next. */
  lemma EdgesSpaced(i: nat)
    ensures Edge(0) == 100.0 && 0.98 * Edge(i + 1) == 1.02 * Edge(i)
  {
    assert Power(i + 1) == Power(i) * GAMMA;
    assert 0.98 * GAMMA == 1.02;
  }

  /** Rounded half up: the integer nearest to `x`. */
  function Rounded(x: real): (v: int)
    ensures -0.5 < v as real - x <= 0.5
  {
    (x + 0.5).Floor
  }

  lemma {:induction false} EdgesGrow(i: nat, j: nat)
    requires i <= j
    ensures Edge(i) <= Edge(j)
    decreases j
  {
    if i < j {
      EdgesGrow(i, j - 1);
      assert Power(j) == Power(j - 1) * GAMMA >= Power(j - 1) * 1.0;
    }
  }

  /** The representative is within 2% of everything in its bin. */
  lemma WithinTwoPercent(x: real, i: nat)
    requires Edge(i) <= x < Edge(i + 1)
    ensures -0.02 * x <= Representative(i) - x <= 0.02 * x
  {
  }

  /** What is reported for a place, if anything. */
  function Reported(bins: nat, place: int): Option<int>
    requires -1 <= place <= bins
  {
    if place == -1 then Some(100)
    else if place < bins then Some(Rounded(Representative(place)))
    else None
  }

  lemma ReportedInOrder(bins: nat, p: int, p': int)
    requires -1 <= p <= p' < bins
    ensures Reported(bins, p).value <= Reported(bins, p').value
  {
    if p >= 0 {
      EdgesGrow(p, p');
    } else if p' >= 0 {
      EdgesGrow(0, p');
      assert Representative(p') >= 102.0;
    }
  }

  // --- Percentiles -----------------------------------------------------------------

  datatype Status = NoSamples | Unavailable | CompactMetric | CountMismatch | Saturated | Insufficient | OverflowQuantile | Fine

  datatype Percentiles = Percentiles(status: Status, p50: Option<int>, p95: Option<int>, p99: Option<int>)

  /** Why a metric has no percentiles, if it has none. */
  function Obstacle(m: Metric): Option<Status> {
    if m.histogram.Missing? then Some(if m.samples == 0 then NoSamples else Unavailable)
    else if m.histogram.Compact? then Some(CompactMetric)
    else if m.underflow + m.overflow + m.saturation + Total(m.histogram.counts) != m.samples then Some(CountMismatch)
    else if m.saturation > 0 then Some(Saturated)
    else if m.samples < 100 then Some(Insufficient)
    else None
  }

  /** The histogram accounts for every sample. */
  predicate Represented(m: Metric) {
    m.histogram.Bins? && m.samples == m.underflow + m.overflow + m.saturation + Total(m.histogram.counts)
  }

  /** Exactly when each status is given.  Percentiles need a histogram that accounts for
      every sample, no saturated bin and at least 100 samples. */
  ghost predicate StatusFits(m: Metric, status: Status) {
    && (status.NoSamples? <==> m.histogram.Missing? && m.samples == 0)
    && (status.Unavailable? <==> m.histogram.Missing? && m.samples > 0)
    && (status.CompactMetric? <==> m.histogram.Compact?)
    && (status.CountMismatch? <==> m.histogram.Bins? && !Represented(m))
    && (status.Saturated? <==> Represented(m) && m.saturation > 0)
    && (status.Insufficient? <==> Represented(m) && m.saturation == 0 && m.samples < 100)
    && (status.Fine? || status.OverflowQuantile? <==> Represented(m) && m.saturation == 0 && m.samples >= 100)
  }

  /** The places of the three percentiles. */
  predicate Places(m: Metric, a: int, b: int, c: int)
    requires m.histogram.Bins?
  {
    && IsAt(m.histogram.counts, m.underflow, Rank(m.samples, 50), a)
    && IsAt(m.histogram.counts, m.underflow, Rank(m.samples, 95), b)
    && IsAt(m.histogram.counts, m.underflow, Rank(m.samples, 99), c)
  }

  lemma AboveMeansOverflow(m: Metric, percent: nat, place: int)
    requires Obstacle(m).None? && percent <= 100
    requires IsAt(m.histogram.counts, m.underflow, Rank(m.samples, percent), place)
    ensures place == |m.histogram.counts| ==>
              m.overflow > 0 && Rank(m.samples, percent) <= m.underflow + Total(m.histogram.counts) + m.overflow
  {
    var counts := m.histogram.counts;
    assert counts[..|counts|] == counts;
    RankInRange(m.samples, percent);
  }

  lemma RankInRange(n: nat, percent: nat)
    requires n > 0 && percent <= 100
    ensures 1 <= Rank(n, percent) <= n
  {
  }

  lemma RanksInOrder(n: nat, p: nat, p': nat)
    requires n > 0 && p <= p'
    ensures Rank(n, p) <= Rank(n, p')
  {
  }

  /** One percentile: its value, and whether it lies in the overflow. */
  method Percentile(m: Metric, percent: nat) returns (value: Option<int>, over: bool, ghost place: int)
    requires Obstacle(m).None? && percent <= 100
    ensures IsAt(m.histogram.counts, m.underflow, Rank(m.samples, percent), place)
    ensures value == Reported(|m.histogram.counts|, place)
    ensures over <==> value.None?
  {
    var counts := m.histogram.counts;
    var found := FindPlace(counts, m.underflow, Rank(m.samples, percent));
    place := found;
    if found == -1 {
      return Some(100), false, place;
    } else if found < |counts| {
      return Some(Rounded(Representative(found))), false, place;
    }
    AboveMeansOverflow(m, percent, found);
    return None, m.overflow > 0 && Rank(m.samples, percent) <= m.underflow + Total(counts) + m.overflow, place;
  }

  method MetricPercentiles(m: Metric) returns (r: Percentiles, ghost a: int, ghost b: int, ghost c: int)
    ensures StatusFits(m, r.status)
    ensures !r.status.Fine? && !r.status.OverflowQuantile? ==> r.p50.None? && r.p95.None? && r.p99.None?
    ensures r.status.Fine? || r.status.OverflowQuantile? ==>
              && Places(m, a, b, c)
              && r.p50 == Reported(|m.histogram.counts|, a)
              && r.p95 == Reported(|m.histogram.counts|, b)
              && r.p99 == Reported(|m.histogram.counts|, c)
              && r.status == if r.p50.None? || r.p95.None? || r.p99.None? then OverflowQuantile else Fine
  {
    a, b, c := 0, 0, 0;
    if Obstacle(m).Some? {
      return Percentiles(Obstacle(m).value, None, None, None), a, b, c;
    }
    var p50, over50, p95, over95, p99, over99;
    p50, over50, a := Percentile(m, 50);
    p95, over95, b := Percentile(m, 95);
    p99, over99, c := Percentile(m, 99);
    r := Percentiles(if over50 || over95 || over99 then OverflowQuantile else Fine, p50, p95, p99);
  }

  /** The percentiles never decrease, and one in the overflow leaves the later ones there. */
  lemma PercentilesInOrder(m: Metric, a: int, b: int, c: int)
    requires Obstacle(m).None? && Places(m, a, b, c)
    ensures var n := |m.histogram.counts|;
            && (Reported(n, b).Some? ==> Reported(n, a).Some? && Reported(n, a).value <= Reported(n, b).value)
            && (Reported(n, c).Some? ==> Reported(n, b).Some? && Reported(n, b).value <= Reported(n, c).value)
  {
    var counts, n := m.histogram.counts, |m.histogram.counts|;
    RanksInOrder(m.samples, 50, 95);
    RanksInOrder(m.samples, 95, 99);
    PlacesInOrder(counts, m.underflow, Rank(m.samples, 50), a, Rank(m.samples, 95), b);
    PlacesInOrder(counts, m.underflow, Rank(m.samples, 95), b, Rank(m.samples, 99), c);
    if b < n {
      ReportedInOrder(n, a, b);
    }
    if c < n {
      ReportedInOrder(n, b, c);
    }
  }
}
