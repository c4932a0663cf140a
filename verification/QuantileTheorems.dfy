/** The percentiles are those of the samples that the histogram was made from. */
module QuantileTheorems {
  import opened Options
  import opened Quantiles

  /** The place of a sample among `bins` bins. */
  predicate Falls(x: real, place: int, bins: nat) {
    && -1 <= place <= bins
    && (place >= 0 ==> Edge(place) <= x)
    && (place < bins ==> x < Edge(place + 1))
  }

  predicate Sorted(samples: seq<real>) {
    forall i, j :: 0 <= i < j < |samples| ==> samples[i] <= samples[j]
  }

  predicate InOrder(places: seq<int>) {
    forall i, j :: 0 <= i < j < |places| ==> places[i] <= places[j]
  }

  predicate AllFall(samples: seq<real>, places: seq<int>, bins: nat) {
    |samples| == |places| && forall i :: 0 <= i < |samples| ==> Falls(samples[i], places[i], bins)
  }

  lemma LargerFallsLater(x: real, p: int, y: real, q: int, bins: nat)
    requires Falls(x, p, bins) && Falls(y, q, bins) && x <= y
    ensures p <= q
  {
    if q < p {
      EdgesGrow(q + 1, p);
    }
  }

  lemma PlacesAreSorted(samples: seq<real>, places: seq<int>, bins: nat)
    requires Sorted(samples) && AllFall(samples, places, bins)
    ensures InOrder(places)
  {
    forall i, j | 0 <= i < j < |places|
      ensures places[i] <= places[j]
    {
      LargerFallsLater(samples[i], places[i], samples[j], places[j], bins);
    }
  }

  // --- Counting --------------------------------------------------------------------

  function CountAt(places: seq<int>, p: int): nat {
    if places == [] then 0
    else CountAt(places[..|places| - 1], p) + if places[|places| - 1] == p then 1 else 0
  }

  function CountUpTo(places: seq<int>, p: int): nat {
    if places == [] then 0
    else CountUpTo(places[..|places| - 1], p) + if places[|places| - 1] <= p then 1 else 0
  }

  /** The metric's histogram is that of the samples. */
  predicate Holds(m: Metric, places: seq<int>)
  {
    && m.histogram.Bins? && m.saturation == 0 && m.samples == |places|
    && m.underflow == CountAt(places, -1) && m.overflow == CountAt(places, |m.histogram.counts|)
    && forall i :: 0 <= i < |m.histogram.counts| ==> m.histogram.counts[i] == CountAt(places, i)
  }

  lemma {:induction false} UpToIsSum(places: seq<int>, p: int)
    ensures CountUpTo(places, p) == CountUpTo(places, p - 1) + CountAt(places, p)
  {
    if places != [] {
      UpToIsSum(places[..|places| - 1], p);
    }
  }

  lemma {:induction false} NoneBelow(places: seq<int>, p: int)
    requires forall i :: 0 <= i < |places| ==> places[i] > p
    ensures CountUpTo(places, p) == 0
  {
    if places != [] {
      NoneBelow(places[..|places| - 1], p);
    }
  }

  lemma {:induction false} AllBelow(places: seq<int>, p: int)
    requires forall i :: 0 <= i < |places| ==> places[i] <= p
    ensures CountUpTo(places, p) == |places|
  {
    if places != [] {
      AllBelow(places[..|places| - 1], p);
    }
  }

  /** The cursor of the scan counts the samples up to a bin. */
  lemma {:induction false} CursorCounts(m: Metric, places: seq<int>, k: nat)
    requires Holds(m, places) && k <= |m.histogram.counts|
    requires forall i :: 0 <= i < |places| ==> places[i] >= -1
    ensures m.underflow + Total(m.histogram.counts[..k]) == CountUpTo(places, k - 1)
    decreases k
  {
    UpToIsSum(places, k - 1);
    if k == 0 {
      NoneBelow(places, -2);
    } else {
      CursorCounts(m, places, k - 1);
      TotalSnoc(m.histogram.counts, k - 1);
    }
  }

  /** In an ordered list, `rank` elements are at most `p` exactly when the one of that
      rank is. */
  lemma {:induction false} UpToMeets(places: seq<int>, p: int, rank: nat)
    requires InOrder(places) && 1 <= rank <= |places|
    ensures CountUpTo(places, p) >= rank <==> places[rank - 1] <= p
  {
    var init, last := places[..|places| - 1], places[|places| - 1];
    if last <= p {
      AllBelow(places, p);
    } else if rank < |places| {
      UpToMeets(init, p, rank);
    } else {
      UpToAtMost(init, p);
    }
  }

  lemma {:induction false} UpToAtMost(places: seq<int>, p: int)
    ensures CountUpTo(places, p) <= |places|
  {
    if places != [] {
      UpToAtMost(places[..|places| - 1], p);
    }
  }

  // --- The nearest rank ------------------------------------------------------------

  /** The scan ends at the bin of the sample of that rank. */
  lemma ScanFindsRank(m: Metric, places: seq<int>, rank: nat, place: int)
    requires Holds(m, places) && InOrder(places)
    requires forall i :: 0 <= i < |places| ==> -1 <= places[i] <= |m.histogram.counts|
    requires 1 <= rank <= |places| && IsAt(m.histogram.counts, m.underflow, rank, place)
    ensures place == places[rank - 1]
  {
    var counts := m.histogram.counts;
    if place >= 0 {
      CursorCounts(m, places, place);
      UpToMeets(places, place - 1, rank);
    }
    if place < |counts| {
      CursorCounts(m, places, place + 1);
      UpToMeets(places, place, rank);
    }
  }

  lemma {:induction false} CountsAddUp(m: Metric, places: seq<int>)
    requires Holds(m, places)
    requires forall i :: 0 <= i < |places| ==> -1 <= places[i] <= |m.histogram.counts|
    ensures m.underflow + m.overflow + Total(m.histogram.counts) == m.samples
  {
    var counts := m.histogram.counts;
    CursorCounts(m, places, |counts|);
    UpToIsSum(places, |counts|);
    AllBelow(places, |counts|);
    assert counts[..|counts|] == counts;
  }

  /** What a percentile of sorted samples must be: 100 below 100 ns, nothing above the last
      edge, and otherwise the integer nearest to the number 2% above the lower edge of the
      bin, which is within 2% and half a nanosecond of the sample of that rank. */
  predicate Describes(value: Option<int>, x: real, bins: nat) {
    if x < 100.0 then value == Some(100)
    else if x >= Edge(bins) then value == None
    else value.Some? && Near(value.value as real, x)
         && exists i: nat :: i < bins && Edge(i) <= x < Edge(i + 1) && -0.5 < value.value as real - 1.02 * Edge(i) <= 0.5
  }

  /** Within 2% and half a nanosecond. */
  predicate Near(v: real, x: real) {
    -0.02 * x - 0.5 <= v - x <= 0.02 * x + 0.5
  }

  /** The value describes the sample of the nearest rank. */
  predicate DescribesRank(value: Option<int>, samples: seq<real>, percent: nat, bins: nat) {
    var rank := Rank(|samples|, percent);
    1 <= rank <= |samples| && Describes(value, samples[rank - 1], bins)
  }

  lemma PercentileDescribes(m: Metric, samples: seq<real>, places: seq<int>, percent: nat, place: int)
    requires Holds(m, places) && Sorted(samples) && AllFall(samples, places, |m.histogram.counts|)
    requires |samples| > 0 && percent <= 100
    requires IsAt(m.histogram.counts, m.underflow, Rank(m.samples, percent), place)
    ensures DescribesRank(Reported(|m.histogram.counts|, place), samples, percent, |m.histogram.counts|)
  {
    var bins, rank := |m.histogram.counts|, Rank(m.samples, percent);
    RankInRange(m.samples, percent);
    PlacesAreSorted(samples, places, bins);
    ScanFindsRank(m, places, rank, place);
    var x := samples[rank - 1];
    assert Falls(x, place, bins);
    EdgesSpaced(0);
    if place >= 0 {
      EdgesGrow(0, place);
    }
    if 0 <= place < bins {
      EdgesGrow(place + 1, bins);
      WithinTwoPercent(x, place);
      assert Representative(place) == 1.02 * Edge(place);
    }
  }

  lemma EnoughSamples(m: Metric, samples: seq<real>, places: seq<int>)
    requires Holds(m, places) && AllFall(samples, places, |m.histogram.counts|) && |samples| >= 100
    ensures Obstacle(m).None?
  {
    CountsAddUp(m, places);
  }

  /** For the histogram of at least 100 samples the percentiles are computed, and each
      describes the sample of its nearest rank. */
  lemma PercentilesDescribeSamples(m: Metric, samples: seq<real>, places: seq<int>, a: int, b: int, c: int)
    requires Holds(m, places) && Sorted(samples) && AllFall(samples, places, |m.histogram.counts|)
    requires |samples| >= 100 && Places(m, a, b, c)
    ensures Obstacle(m).None?
    ensures DescribesRank(Reported(|m.histogram.counts|, a), samples, 50, |m.histogram.counts|)
    ensures DescribesRank(Reported(|m.histogram.counts|, b), samples, 95, |m.histogram.counts|)
    ensures DescribesRank(Reported(|m.histogram.counts|, c), samples, 99, |m.histogram.counts|)
  {
    EnoughSamples(m, samples, places);
    PercentileDescribes(m, samples, places, 50, a);
    PercentileDescribes(m, samples, places, 95, b);
    PercentileDescribes(m, samples, places, 99, c);
  }

  /** Every sample has a place: the edges cover the line. */
  lemma {:induction false} SomePlace(x: real, bins: nat) returns (place: int)
    ensures Falls(x, place, bins)
  {
    if x < Edge(0) {
      place := -1;
    } else if bins == 0 {
      place := 0;
    } else {
      place := SomePlace(x, bins - 1);
      if place == bins - 1 && x >= Edge(bins) {
        place := bins;
      }
    }
  }

  // --- Nearest ranks of the guest's own samples ------------------------------------

  predicate Increasing(sorted: seq<int>) {
    forall i, j :: 0 <= i < j < |sorted| ==> sorted[i] <= sorted[j]
  }

  /** The element of the least rank that covers the percentage; some element when it is 0. */
  function NearestRank(sorted: seq<int>, percent: nat): int
    requires |sorted| > 0 && percent <= 100
  {
    RankInRange(|sorted|, percent);
    sorted[Rank(|sorted|, percent) - 1]
  }

  lemma RankIsLeast(n: nat, percent: nat)
    requires n > 0 && 0 < percent <= 100
    ensures 100 * (Rank(n, percent) - 1) < n * percent <= 100 * Rank(n, percent)
  {
  }

  /** The order of the guest's percentiles that the host requires. */
  lemma GuestPercentilesInOrder(sorted: seq<int>)
    requires |sorted| > 0 && Increasing(sorted)
    ensures sorted[0] <= NearestRank(sorted, 50) <= NearestRank(sorted, 95) <= NearestRank(sorted, 99)
            <= sorted[|sorted| - 1]
  {
    var n := |sorted|;
    RankInRange(n, 50);
    RankInRange(n, 99);
    RanksInOrder(n, 50, 95);
    RanksInOrder(n, 95, 99);
  }
}
