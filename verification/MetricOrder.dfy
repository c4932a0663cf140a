/** In which order, and on how many levels, metrics are merged. */
module MetricOrder {
  import opened MetricMerge
  import opened Options
  import opened Permutations

  predicate IsBusy(m: Metric) {
    Get(m.counters, Calls) > 0
  }

  /** The metrics with calls, in order. */
  function Busy(ms: seq<Metric>): (r: seq<Metric>)
    ensures forall m :: m in r <==> m in ms && IsBusy(m)
  {
    if ms == [] then []
    else
      assert ms == ms[..|ms| - 1] + [ms[|ms| - 1]];
      Busy(ms[..|ms| - 1]) + if IsBusy(ms[|ms| - 1]) then [ms[|ms| - 1]] else []
  }

  function Idle(ms: seq<Metric>): (r: seq<Metric>)
    ensures forall m :: m in r <==> m in ms && !IsBusy(m)
  {
    if ms == [] then []
    else
      assert ms == ms[..|ms| - 1] + [ms[|ms| - 1]];
      Idle(ms[..|ms| - 1]) + if IsBusy(ms[|ms| - 1]) then [] else [ms[|ms| - 1]]
  }

  ghost predicate AllWellformed(ms: seq<Metric>) {
    forall m :: m in ms ==> Wellformed(m)
  }

  /** Metrics with calls are what the totals are made of. */
  function Sources(ms: seq<Metric>): (r: seq<Source>)
    requires AllWellformed(ms)
    ensures r == Busy(ms)
  {
    Busy(ms)
  }

  // --- The callers drop metrics without calls --------------------------------------

  function Kept(m: Metric): seq<Metric> {
    if IsBusy(m) then [m] else []
  }

  lemma Regroup(a: seq<Metric>, b: seq<Metric>, c: seq<Metric>)
    ensures a + b + c == a + (b + c)
  {
  }

  lemma BusySnoc(ms: seq<Metric>, m: Metric)
    ensures Busy(ms + [m]) == Busy(ms) + Kept(m)
  {
    assert (ms + [m])[..|ms|] == ms;
  }

  lemma {:induction false} BusyJoins(a: seq<Metric>, b: seq<Metric>)
    ensures Busy(a + b) == Busy(a) + Busy(b)
    decreases |b|
  {
    if b == [] {
      assert a + b == a;
    } else {
      var init, last := b[..|b| - 1], b[|b| - 1];
      BusyJoins(a, init);
      BusySnoc(a + init, last);
      BusySnoc(init, last);
      Regroup(a, init, [last]);
      Regroup(Busy(a), Busy(init), Kept(last));
      assert b == init + [last];
    }
  }

  lemma CountSnoc(ms: seq<Metric>, x: Metric, m: Metric)
    ensures multiset(ms + [x])[m] == multiset(ms)[m] + if x == m then 1 else 0
  {
  }

  lemma BusyCountsStep(init: seq<Metric>, last: Metric, m: Metric)
    requires multiset(Busy(init))[m] == if IsBusy(m) then multiset(init)[m] else 0
    ensures multiset(Busy(init + [last]))[m] == if IsBusy(m) then multiset(init + [last])[m] else 0
  {
    BusySnoc(init, last);
    CountSnoc(init, last, m);
    if IsBusy(last) {
      CountSnoc(Busy(init), last, m);
    } else {
      assert Busy(init) + [] == Busy(init);
    }
  }

  lemma SplitLast<T>(xs: seq<T>) returns (init: seq<T>, last: T)
    requires xs != []
    ensures xs == init + [last] && |init| < |xs|
  {
    init, last := xs[..|xs| - 1], xs[|xs| - 1];
  }

  lemma {:induction false} BusyCounts(ms: seq<Metric>, m: Metric)
    ensures multiset(Busy(ms))[m] == if IsBusy(m) then multiset(ms)[m] else 0
    decreases |ms|
  {
    if ms != [] {
      var init, last := SplitLast(ms);
      BusyCounts(init, m);
      BusyCountsStep(init, last, m);
    }
  }

  /** What the callers merge does not depend on the order of the producers. */
  lemma CallersIgnoreOrder(a: seq<Metric>, b: seq<Metric>)
    requires AllWellformed(a) && AllWellformed(b) && multiset(a) == multiset(b)
    ensures Merge(Busy(a)) == Merge(Busy(b))
  {
    forall m: Metric
      ensures multiset(Busy(a))[m] == multiset(Busy(b))[m]
    {
      BusyCounts(a, m);
      BusyCounts(b, m);
    }
    MergeIgnoresOrder(Sources(a), Sources(b));
  }

  lemma MergeBusySnoc(done: seq<Metric>, m: Metric)
    ensures Merge(Busy(done + [m])) == if IsBusy(m) then Add(Merge(Busy(done)), m) else Merge(Busy(done))
  {
    BusySnoc(done, m);
    if IsBusy(m) {
      MergeSnoc(Busy(done), m);
    } else {
      assert Busy(done) + [] == Busy(done);
    }
  }

  /** A metric without calls is skipped. */
  method AddIfBusy(target: Target, m: Metric, ghost done: seq<Metric>)
    requires Wellformed(m) && target.Valid() && target.View() == Merge(Busy(done))
    modifies target
    ensures target.Valid() && target.View() == Merge(Busy(done + [m]))
  {
    MergeBusySnoc(done, m);
    if IsBusy(m) {
      target.AddMetric(m);
    }
  }

  lemma TakeSnoc<T>(xs: seq<T>, i: nat)
    requires i < |xs|
    ensures xs[..i + 1] == xs[..i] + [xs[i]]
  {
  }

  /** The loop over the producers of one arena. */
  method MergeProducers(ms: seq<Metric>) returns (t: Total)
    requires AllWellformed(ms)
    ensures t == Merge(Busy(ms))
  {
    var target := new Target();
    ghost var done: seq<Metric> := [];
    var i := 0;
    while i < |ms|
      invariant 0 <= i <= |ms| && done == ms[..i]
      invariant target.Valid() && target.View() == Merge(Busy(done)) && fresh(target)
    {
      assert ms[i] in ms;
      AddIfBusy(target, ms[i], done);
      TakeSnoc(ms, i);
      done := done + [ms[i]];
      i := i + 1;
    }
    assert ms[..i] == ms;
    t := target.View();
  }

  lemma MergeSnoc(ms: seq<Metric>, m: Metric)
    ensures Merge(ms + [m]) == Add(Merge(ms), m)
  {
    assert (ms + [m])[..|ms|] == ms;
  }

  // --- Merging totals --------------------------------------------------------------

  /** A total as the row that is merged further; without samples the extremes are not
      looked at. */
  function RowOf(t: Total): Metric {
    Metric(t.counters, if t.min.Some? then t.min.value else 0, if t.max.Some? then t.max.value else 0, t.bins)
  }

  /** What every total of metrics with calls satisfies. */
  ghost predicate Coherent(t: Total) {
    && (Get(t.counters, DurationSamples) > 0 <==> t.min.Some?)
    && (t.min.Some? <==> t.max.Some?)
    && (t.bins.Some? ==> |t.bins.value| == BINS)
  }

  lemma MergeIsCoherent(ms: seq<Source>)
    ensures Coherent(Merge(ms))
    ensures ms != [] ==> Nonempty(RowOf(Merge(ms)))
  {
    MergeIsTotal(ms);
    CounterIs(ms, DurationSamples);
    CounterIs(ms, Calls);
    SamplesCounted(ms);
    CallsCounted(ms);
    if ms != [] {
      assert Nonempty(ms[0]) && DurationSamples in ms[0].counters;
    }
  }

  lemma CountersRegroup(a: map<Counter, nat>, b: map<Counter, nat>, c: map<Counter, nat>)
    ensures AddCounters(AddCounters(a, b), c) == AddCounters(a, AddCounters(b, c))
  {
    var l, r := AddCounters(AddCounters(a, b), c), AddCounters(a, AddCounters(b, c));
    forall k: Counter
      ensures (k in l <==> k in r) && Get(l, k) == Get(r, k)
    {
      AddedIs(a, b, k);
      AddedIs(b, c, k);
      AddedIs(AddCounters(a, b), c, k);
      AddedIs(a, AddCounters(b, c), k);
    }
    SameCounters(l, r);
  }

  lemma BinsRegroup(had: bool, t: Option<seq<nat>>, u: Option<seq<nat>>, y: Option<seq<nat>>)
    ensures MergeBins(true, MergeBins(had, t, u), y) == MergeBins(had, t, MergeBins(true, u, y))
  {
    var l, r := MergeBins(true, MergeBins(had, t, u), y), MergeBins(had, t, MergeBins(true, u, y));
    if l.Some? && r.Some? {
      assert forall i :: 0 <= i < BINS ==> l.value[i] == r.value[i];
      assert l.value == r.value;
    }
  }

  /** Adding to a row before it is merged, or after. */
  lemma AddRegroups(t: Total, u: Total, y: Source)
    requires Coherent(t) && Coherent(u) && Get(u.counters, Calls) > 0
    ensures Add(Add(t, RowOf(u)), y) == Add(t, RowOf(Add(u, y)))
  {
    CountersRegroup(t.counters, u.counters, y.counters);
    BinsRegroup(Get(t.counters, Calls) > 0, t.bins, u.bins, y.bins);
    AddedIs(t.counters, u.counters, DurationSamples);
    AddedIs(u.counters, y.counters, DurationSamples);
    AddedIs(t.counters, u.counters, Calls);
  }

  lemma AddOne(t: Total, y: Source)
    ensures Add(t, RowOf(Add(Start, y))) == Add(t, y)
  {
    forall k: Counter
      ensures (k in AddCounters(map[], y.counters) <==> k in y.counters)
              && Get(AddCounters(map[], y.counters), k) == Get(y.counters, k)
    {
      AddedIs(map[], y.counters, k);
    }
    SameCounters(AddCounters(map[], y.counters), y.counters);
  }

  /** Merging a total is merging the metrics that it was made of. */
  lemma {:induction false} MergeTotal(a: seq<Source>, b: seq<Source>)
    requires b != []
    ensures Merge(a + b) == Add(Merge(a), RowOf(Merge(b)))
    decreases |b|
  {
    var init, last := b[..|b| - 1], b[|b| - 1];
    assert a + b == a + init + [last] && b == init + [last];
    MergeSnoc(a + init, last);
    MergeSnoc(init, last);
    if init == [] {
      assert a + init == a;
      AddOne(Merge(a), last);
    } else {
      MergeTotal(a, init);
      MergeIsCoherent(a);
      MergeIsCoherent(init);
      AddRegroups(Merge(a), Merge(init), last);
    }
  }

  // --- Producers, then arenas ------------------------------------------------------

  /** The row of an arena, if any of its metrics has calls. */
  function RowsOf(arena: seq<Metric>): seq<Metric> {
    if Busy(arena) == [] then [] else [RowOf(Merge(Busy(arena)))]
  }

  function Rows(arenas: seq<seq<Metric>>): seq<Metric> {
    if arenas == [] then [] else Rows(arenas[..|arenas| - 1]) + RowsOf(arenas[|arenas| - 1])
  }

  function Flat(arenas: seq<seq<Metric>>): seq<Metric> {
    if arenas == [] then [] else Flat(arenas[..|arenas| - 1]) + arenas[|arenas| - 1]
  }

  ghost predicate Decoded(arenas: seq<seq<Metric>>) {
    forall i :: 0 <= i < |arenas| ==> AllWellformed(arenas[i])
  }

  lemma {:induction false} FlatIsWellformed(arenas: seq<seq<Metric>>)
    requires Decoded(arenas)
    ensures AllWellformed(Flat(arenas))
  {
    if arenas != [] {
      FlatIsWellformed(arenas[..|arenas| - 1]);
    }
  }

  /** Every row that is merged has calls, so nothing is lost and no order matters. */
  lemma {:induction false} RowsAreBusy(arenas: seq<seq<Metric>>)
    requires Decoded(arenas)
    ensures forall m :: m in Rows(arenas) ==> Nonempty(m)
  {
    if arenas != [] {
      RowsAreBusy(arenas[..|arenas| - 1]);
      MergeIsCoherent(Sources(arenas[|arenas| - 1]));
    }
  }

  lemma RowsSnoc(arenas: seq<seq<Metric>>, arena: seq<Metric>)
    ensures Rows(arenas + [arena]) == Rows(arenas) + RowsOf(arena)
    ensures Flat(arenas + [arena]) == Flat(arenas) + arena
  {
    assert (arenas + [arena])[..|arenas|] == arenas;
  }

  /** Merging arena by arena gives what merging all metrics at once gives. */
  lemma {:induction false} TwoLevelsAreOne(arenas: seq<seq<Metric>>)
    requires Decoded(arenas)
    ensures Merge(Rows(arenas)) == Merge(Busy(Flat(arenas)))
  {
    if arenas != [] {
      var init, last := arenas[..|arenas| - 1], arenas[|arenas| - 1];
      assert arenas == init + [last];
      TwoLevelsAreOne(init);
      RowsSnoc(init, last);
      FlatIsWellformed(init);
      BusyJoins(Flat(init), last);
      if Busy(last) == [] {
        assert Busy(Flat(init)) + Busy(last) == Busy(Flat(init)) && Rows(init) + [] == Rows(init);
      } else {
        MergeSnoc(Rows(init), RowOf(Merge(Busy(last))));
        MergeTotal(Sources(Flat(init)), Sources(last));
      }
    }
  }

  lemma MergeRowsSnoc(done: seq<seq<Metric>>, arena: seq<Metric>)
    ensures Merge(Rows(done + [arena]))
            == if Busy(arena) == [] then Merge(Rows(done)) else Add(Merge(Rows(done)), RowOf(Merge(Busy(arena))))
  {
    RowsSnoc(done, arena);
    if Busy(arena) == [] {
      assert Rows(done) + [] == Rows(done);
    } else {
      MergeSnoc(Rows(done), RowOf(Merge(Busy(arena))));
    }
  }

  /** The row of one arena joins the combined total, if the arena has one. */
  method AddArena(combined: Target, arena: seq<Metric>, ghost done: seq<seq<Metric>>)
    requires AllWellformed(arena) && combined.Valid() && combined.View() == Merge(Rows(done))
    modifies combined
    ensures combined.Valid() && combined.View() == Merge(Rows(done + [arena]))
  {
    MergeRowsSnoc(done, arena);
    var row := MergeProducers(arena);
    if Busy(arena) != [] {
      MergeIsCoherent(Sources(arena));
      combined.AddMetric(RowOf(row));
    }
  }

  method CombinedStage(arenas: seq<seq<Metric>>) returns (t: Total)
    requires Decoded(arenas)
    ensures t == Merge(Busy(Flat(arenas)))
  {
    var combined := new Target();
    ghost var done: seq<seq<Metric>> := [];
    var i := 0;
    while i < |arenas|
      invariant 0 <= i <= |arenas| && done == arenas[..i]
      invariant combined.Valid() && combined.View() == Merge(Rows(done)) && fresh(combined)
    {
      AddArena(combined, arenas[i], done);
      TakeSnoc(arenas, i);
      done := done + [arenas[i]];
      i := i + 1;
    }
    assert arenas[..i] == arenas;
    TwoLevelsAreOne(arenas);
    t := combined.View();
  }
}
