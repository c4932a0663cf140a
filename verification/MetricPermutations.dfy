/** Exactly when the order of merging matters, for any metrics, with calls or without. */
module MetricPermutations {
  import opened MetricMerge
  import opened MetricOrder
  import opened Options
  import opened Permutations

  // --- The bins of any merge -------------------------------------------------------

  /** The place of the first metric with calls, or the length. */
  function FirstBusy(ms: seq<Metric>): (f: nat)
    ensures f <= |ms| && (f < |ms| ==> IsBusy(ms[f]))
    ensures forall i :: 0 <= i < f ==> !IsBusy(ms[i])
  {
    if ms == [] then 0
    else
      var f := FirstBusy(ms[..|ms| - 1]);
      if f < |ms| - 1 || IsBusy(ms[|ms| - 1]) then f else |ms|
  }

  /** Without calls the bins are those of the last metric; otherwise they are the sums
      from the first metric with calls on, and absent when one of those is compact. */
  ghost predicate BinsSpelled(ms: seq<Metric>, t: Total) {
    var f := FirstBusy(ms);
    if f == |ms| then t.bins == if ms == [] then None else ms[|ms| - 1].bins
    else BinsAre(ms[f..], t)
  }

  lemma {:induction false} CallsSum(ms: seq<Metric>)
    ensures Sum(ms, Calls) > 0 <==> FirstBusy(ms) < |ms|
  {
    if ms != [] {
      CallsSum(ms[..|ms| - 1]);
    }
  }

  lemma FirstBusySnoc(init: seq<Metric>, last: Metric)
    ensures FirstBusy(init + [last])
            == if FirstBusy(init) < |init| || IsBusy(last) then FirstBusy(init) else |init| + 1
  {
    assert (init + [last])[..|init|] == init;
  }

  lemma SingleBins(last: Metric, t: Total)
    requires Wellformed(last) && t.bins == last.bins
    ensures BinsAre([last], t)
  {
    var one := [last];
    assert one[..0] == [] && one[0] == last;
    assert SomeCompact(one) <==> last.bins.None?;
    if last.bins.Some? {
      forall i | 0 <= i < BINS
        ensures BinSum(one, i) == last.bins.value[i]
      {
        assert BinSum([], i) == 0;
      }
    }
  }

  lemma SpelledAfterBusy(init: seq<Metric>, last: Metric, t: Total)
    requires Wellformed(last) && FirstBusy(init) < |init| && BinsAre(init[FirstBusy(init)..], t)
    requires Get(t.counters, Calls) > 0
    ensures BinsSpelled(init + [last], Add(t, last))
  {
    var f := FirstBusy(init);
    FirstBusySnoc(init, last);
    BinsStep(init[f..], last, t);
    TailGrows(init, last, f);
    SpelledByTail(init + [last], init[f..] + [last], Add(t, last));
  }

  lemma TailGrows(init: seq<Metric>, last: Metric, f: nat)
    requires f <= |init|
    ensures (init + [last])[f..] == init[f..] + [last]
  {
  }

  lemma SpelledByTail(ms: seq<Metric>, tail: seq<Metric>, t: Total)
    requires FirstBusy(ms) < |ms| && ms[FirstBusy(ms)..] == tail && BinsAre(tail, t)
    ensures BinsSpelled(ms, t)
  {
  }

  lemma SpelledAtBusy(init: seq<Metric>, last: Metric, t: Total)
    requires Wellformed(last) && FirstBusy(init) == |init| && IsBusy(last) && Get(t.counters, Calls) == 0
    ensures BinsSpelled(init + [last], Add(t, last))
  {
    FirstBusySnoc(init, last);
    SingleBins(last, Add(t, last));
    assert (init + [last])[|init|..] == [last];
  }

  lemma SpelledWhileIdle(init: seq<Metric>, last: Metric, t: Total)
    requires FirstBusy(init) == |init| && !IsBusy(last) && Get(t.counters, Calls) == 0
    ensures BinsSpelled(init + [last], Add(t, last))
  {
    FirstBusySnoc(init, last);
    assert (init + [last])[|init|] == last;
  }

  lemma BinsSpelledStep(init: seq<Metric>, last: Metric, t: Total)
    requires Wellformed(last) && BinsSpelled(init, t)
    requires Get(t.counters, Calls) > 0 <==> FirstBusy(init) < |init|
    ensures BinsSpelled(init + [last], Add(t, last))
  {
    if FirstBusy(init) < |init| {
      SpelledAfterBusy(init, last, t);
    } else if IsBusy(last) {
      SpelledAtBusy(init, last, t);
    } else {
      SpelledWhileIdle(init, last, t);
    }
  }

  lemma {:induction false} MergedBinsSpelled(ms: seq<Metric>)
    requires AllWellformed(ms)
    ensures BinsSpelled(ms, Merge(ms))
  {
    if ms != [] {
      var init, last := ms[..|ms| - 1], ms[|ms| - 1];
      assert ms == init + [last];
      MergedBinsSpelled(init);
      CallsSum(init);
      CounterIs(init, Calls);
      BinsSpelledStep(init, last, Merge(init));
      MergeSnoc(init, last);
    }
  }

  lemma SameBins(ms: seq<Metric>, t: Total, u: Total)
    requires BinsAre(ms, t) && BinsAre(ms, u)
    ensures t.bins == u.bins
  {
    if t.bins.Some? {
      assert t.bins.value == u.bins.value;
    }
  }

  // --- Everything else ignores the order -------------------------------------------

  /** An addition without the bins. */
  function AddRest(): (Total, Metric) -> Total {
    (t: Total, s: Metric) => Add(t, s).(bins := None)
  }

  lemma RestCommutes(t: Total, x: Metric, y: Metric)
    ensures AddRest()(AddRest()(t, x), y) == AddRest()(AddRest()(t, y), x)
  {
    CountersCommute(t.counters, x.counters, y.counters);
  }

  lemma {:induction false} MergeRest(ms: seq<Metric>)
    ensures Merge(ms).(bins := None) == Fold(AddRest(), Start, ms)
  {
    if ms != [] {
      MergeRest(ms[..|ms| - 1]);
    }
  }

  lemma RestIgnoresOrder(a: seq<Metric>, b: seq<Metric>)
    requires multiset(a) == multiset(b)
    ensures Merge(a).(bins := None) == Merge(b).(bins := None)
  {
    forall t: Total, x: Metric, y: Metric
      ensures AddRest()(AddRest()(t, x), y) == AddRest()(AddRest()(t, y), x)
    {
      RestCommutes(t, x, y);
    }
    FoldPermutation(AddRest(), Start, a, b);
    MergeRest(a);
    MergeRest(b);
  }

  // --- The exact condition ---------------------------------------------------------

  predicate ZeroBins(m: Metric) {
    m.bins.Some? && forall i :: 0 <= i < |m.bins.value| ==> m.bins.value[i] == 0
  }

  predicate HasBusy(ms: seq<Metric>) {
    exists m :: m in ms && IsBusy(m)
  }

  predicate HasBusyCompact(ms: seq<Metric>) {
    exists m :: m in ms && IsBusy(m) && m.bins.None?
  }

  predicate IdleAreZero(ms: seq<Metric>) {
    forall m :: m in ms && !IsBusy(m) ==> ZeroBins(m)
  }

  predicate SameBinsAll(ms: seq<Metric>) {
    forall x, y :: x in ms && y in ms ==> x.bins == y.bins
  }

  /** Nothing has calls and all bins are equal; or something with calls is compact; or
      everything without calls has bins that are all zero. */
  predicate OrderFree(ms: seq<Metric>) {
    if HasBusy(ms) then HasBusyCompact(ms) || IdleAreZero(ms) else SameBinsAll(ms)
  }

  ghost predicate Reorders(p: seq<Metric>, ms: seq<Metric>) {
    multiset(p) == multiset(ms)
  }

  ghost predicate AllOrdersAgree(ms: seq<Metric>) {
    forall p :: Reorders(p, ms) ==> Merge(p) == Merge(ms)
  }

  lemma AgreesOn(ms: seq<Metric>, p: seq<Metric>)
    requires AllOrdersAgree(ms) && multiset(p) == multiset(ms)
    ensures Merge(p) == Merge(ms)
  {
    assert Reorders(p, ms);
  }

  lemma SameMembers(a: seq<Metric>, b: seq<Metric>, m: Metric)
    requires multiset(a) == multiset(b)
    ensures m in a <==> m in b
  {
    assert m in a <==> m in multiset(a);
    assert m in b <==> m in multiset(b);
  }

  lemma BusyFound(ms: seq<Metric>)
    ensures HasBusy(ms) <==> FirstBusy(ms) < |ms|
  {
    if m :| m in ms && IsBusy(m) {
      var i :| 0 <= i < |ms| && ms[i] == m;
    }
  }

  /** A metric with calls is never before the first one. */
  lemma BusyIsAfter(ms: seq<Metric>, m: Metric)
    requires m in ms && IsBusy(m)
    ensures m in ms[FirstBusy(ms)..]
  {
    var i :| 0 <= i < |ms| && ms[i] == m;
    assert ms[FirstBusy(ms)..][i - FirstBusy(ms)] == m;
  }

  // --- Enough ----------------------------------------------------------------------

  lemma {:induction false} ZeroPrefix(a: seq<Metric>, b: seq<Metric>, i: nat)
    requires i < BINS && forall m :: m in a ==> Wellformed(m) && ZeroBins(m)
    ensures BinSum(a + b, i) == BinSum(b, i)
    decreases |b|, |a|
  {
    if b == [] {
      assert a + b == a;
      if a != [] {
        ZeroPrefix(a[..|a| - 1], [], i);
        assert a[..|a| - 1] + [] == a[..|a| - 1] && a[|a| - 1] in a;
      }
    } else {
      assert (a + b)[..|a + b| - 1] == a + b[..|b| - 1];
      ZeroPrefix(a, b[..|b| - 1], i);
    }
  }

  function AddBin(i: nat): (int, Metric) -> int {
    (n: int, m: Metric) => n + if m.bins.Some? then BinAt(m.bins.value, i) else 0
  }

  lemma {:induction false} BinSumIsFold(ms: seq<Metric>, i: nat)
    ensures BinSum(ms, i) == Fold(AddBin(i), 0, ms)
  {
    if ms != [] {
      BinSumIsFold(ms[..|ms| - 1], i);
    }
  }

  lemma BinSumIgnoresOrder(a: seq<Metric>, b: seq<Metric>, i: nat)
    requires multiset(a) == multiset(b)
    ensures BinSum(a, i) == BinSum(b, i)
  {
    assert Commutes(AddBin(i));
    FoldPermutation(AddBin(i), 0, a, b);
    BinSumIsFold(a, i);
    BinSumIsFold(b, i);
  }

  lemma NothingCompact(ms: seq<Metric>)
    requires !HasBusyCompact(ms) && IdleAreZero(ms)
    ensures !SomeCompact(ms)
  {
    forall i | 0 <= i < |ms|
      ensures ms[i].bins.Some?
    {
      assert ms[i] in ms;
    }
  }

  lemma ZeroBefore(ms: seq<Metric>, f: nat, i: nat)
    requires AllWellformed(ms) && IdleAreZero(ms) && f <= |ms| && i < BINS
    requires forall k :: 0 <= k < f ==> !IsBusy(ms[k])
    ensures BinSum(ms, i) == BinSum(ms[f..], i)
  {
    assert ms == ms[..f] + ms[f..];
    assert forall m :: m in ms[..f] ==> m in ms && !IsBusy(m);
    ZeroPrefix(ms[..f], ms[f..], i);
  }

  /** With zero bins before the first metric with calls the sums run over everything. */
  lemma ZeroIdleBins(ms: seq<Metric>)
    requires AllWellformed(ms) && HasBusy(ms) && !HasBusyCompact(ms) && IdleAreZero(ms)
    ensures BinsAre(ms, Merge(ms)) && !SomeCompact(ms)
  {
    var f := FirstBusy(ms);
    BusyFound(ms);
    MergedBinsSpelled(ms);
    NothingCompact(ms);
    assert !SomeCompact(ms[f..]);
    forall i | 0 <= i < BINS
      ensures BinSum(ms, i) == BinSum(ms[f..], i)
    {
      ZeroBefore(ms, f, i);
    }
  }

  lemma ZeroIdleAgrees(a: seq<Metric>, b: seq<Metric>)
    requires AllWellformed(a) && HasBusy(a) && !HasBusyCompact(a) && IdleAreZero(a)
    requires AllWellformed(b) && HasBusy(b) && !HasBusyCompact(b) && IdleAreZero(b)
    requires multiset(a) == multiset(b)
    ensures Merge(a).bins == Merge(b).bins
  {
    ZeroIdleBins(a);
    ZeroIdleBins(b);
    forall i | 0 <= i < BINS
      ensures Merge(a).bins.value[i] == Merge(b).bins.value[i]
    {
      BinSumIgnoresOrder(a, b, i);
    }
    assert Merge(a).bins.value == Merge(b).bins.value;
  }

  lemma CompactHasNone(ms: seq<Metric>)
    requires AllWellformed(ms) && HasBusyCompact(ms)
    ensures Merge(ms).bins == None
  {
    var m :| m in ms && IsBusy(m) && m.bins.None?;
    BusyIsAfter(ms, m);
    BusyFound(ms);
    MergedBinsSpelled(ms);
    var tail := ms[FirstBusy(ms)..];
    var i :| 0 <= i < |tail| && tail[i] == m;
    assert SomeCompact(tail);
  }

  lemma IdleHasLast(ms: seq<Metric>)
    requires AllWellformed(ms) && !HasBusy(ms)
    ensures Merge(ms).bins == if ms == [] then None else ms[|ms| - 1].bins
  {
    BusyFound(ms);
    MergedBinsSpelled(ms);
  }

  lemma OrderFreeAgrees(a: seq<Metric>, b: seq<Metric>)
    requires AllWellformed(a) && OrderFree(a) && multiset(a) == multiset(b)
    ensures Merge(a) == Merge(b)
  {
    forall m: Metric
      ensures m in a <==> m in b
    {
      SameMembers(a, b, m);
    }
    assert HasBusy(a) <==> HasBusy(b);
    assert HasBusyCompact(a) <==> HasBusyCompact(b);
    if HasBusyCompact(a) {
      CompactHasNone(a);
      CompactHasNone(b);
    } else if HasBusy(a) {
      ZeroIdleAgrees(a, b);
    } else {
      IdleHasLast(a);
      IdleHasLast(b);
      assert |a| == |multiset(a)| == |multiset(b)| == |b|;
      if a != [] {
        assert a[|a| - 1] in a && b[|b| - 1] in b;
      }
    }
    RestIgnoresOrder(a, b);
    SameTotal(Merge(a), Merge(b));
  }

  lemma SameTotal(t: Total, u: Total)
    requires t.(bins := None) == u.(bins := None) && t.bins == u.bins
    ensures t == u
  {
    assert t.counters == t.(bins := None).counters && t.min == t.(bins := None).min && t.max == t.(bins := None).max;
    assert u.counters == u.(bins := None).counters && u.min == u.(bins := None).min && u.max == u.(bins := None).max;
  }

  // --- Needed ----------------------------------------------------------------------

  lemma MovedLast(ms: seq<Metric>, i: nat)
    requires i < |ms|
    ensures multiset(ms[..i] + ms[i + 1..] + [ms[i]]) == multiset(ms)
  {
    assert ms == ms[..i] + [ms[i]] + ms[i + 1..];
  }

  lemma OrderKeepsMembers(ms: seq<Metric>, p: seq<Metric>)
    requires AllWellformed(ms) && multiset(p) == multiset(ms)
    ensures AllWellformed(p) && (HasBusy(p) <==> HasBusy(ms))
  {
    forall m: Metric
      ensures m in p <==> m in ms
    {
      SameMembers(p, ms, m);
    }
  }

  lemma LastOfIdle(init: seq<Metric>, x: Metric)
    requires AllWellformed(init + [x]) && !HasBusy(init + [x])
    ensures Merge(init + [x]).bins == x.bins
  {
    IdleHasLast(init + [x]);
  }

  lemma IdleNeedSameBins(ms: seq<Metric>, x: Metric)
    requires AllWellformed(ms) && !HasBusy(ms) && AllOrdersAgree(ms) && x in ms
    ensures x.bins == Merge(ms).bins
  {
    var i :| 0 <= i < |ms| && ms[i] == x;
    var init := ms[..i] + ms[i + 1..];
    MovedLast(ms, i);
    OrderKeepsMembers(ms, init + [x]);
    LastOfIdle(init, x);
    AgreesOn(ms, init + [x]);
  }

  lemma IdleSnoc(ms: seq<Metric>, m: Metric)
    ensures Idle(ms + [m]) == Idle(ms) + if IsBusy(m) then [] else [m]
  {
    assert (ms + [m])[..|ms|] == ms;
  }

  lemma IdleCountsStep(init: seq<Metric>, last: Metric, m: Metric)
    requires multiset(Idle(init))[m] == if IsBusy(m) then 0 else multiset(init)[m]
    ensures multiset(Idle(init + [last]))[m] == if IsBusy(m) then 0 else multiset(init + [last])[m]
  {
    IdleSnoc(init, last);
    CountSnoc(init, last, m);
    if IsBusy(last) {
      assert Idle(init) + [] == Idle(init);
    } else {
      CountSnoc(Idle(init), last, m);
    }
  }

  lemma {:induction false} IdleCounts(ms: seq<Metric>, m: Metric)
    ensures multiset(Idle(ms))[m] == if IsBusy(m) then 0 else multiset(ms)[m]
    decreases |ms|
  {
    if ms != [] {
      var init, last := SplitLast(ms);
      IdleCounts(init, m);
      IdleCountsStep(init, last, m);
    }
  }

  lemma IdleThenBusy(ms: seq<Metric>)
    ensures multiset(Idle(ms) + Busy(ms)) == multiset(ms)
  {
    forall m: Metric
      ensures multiset(Idle(ms) + Busy(ms))[m] == multiset(ms)[m]
    {
      IdleCounts(ms, m);
      BusyCounts(ms, m);
    }
  }

  lemma FirstBusyAfter(idle: seq<Metric>, rest: seq<Metric>)
    requires (forall m :: m in idle ==> !IsBusy(m)) && rest != [] && IsBusy(rest[0])
    ensures FirstBusy(idle + rest) == |idle|
  {
    var ms := idle + rest;
    assert ms[|idle|] == rest[0];
    assert forall i :: 0 <= i < |idle| ==> ms[i] in idle;
  }

  /** Metrics without calls before one with calls leave no bins. */
  lemma PrefixForgotten(idle: seq<Metric>, rest: seq<Metric>)
    requires AllWellformed(idle) && AllWellformed(rest)
    requires (forall m :: m in idle ==> !IsBusy(m)) && rest != [] && IsBusy(rest[0])
    ensures BinsAre(rest, Merge(idle + rest))
  {
    FirstBusyAfter(idle, rest);
    MergedBinsSpelled(idle + rest);
    assert (idle + rest)[|idle|..] == rest;
  }

  lemma {:induction false} BusyFirst(ms: seq<Metric>)
    requires HasBusy(ms)
    ensures Busy(ms) != [] && IsBusy(Busy(ms)[0])
  {
    var m :| m in ms && IsBusy(m);
    assert m in Busy(ms);
    assert Busy(ms)[0] in Busy(ms);
  }

  lemma AddedNothing(v: seq<nat>, m: Metric)
    requires |v| == BINS && Wellformed(m) && MergeBins(true, Some(v), m.bins) == Some(v)
    ensures ZeroBins(m)
  {
    forall i | 0 <= i < |m.bins.value|
      ensures m.bins.value[i] == 0
    {
      assert AddBins(v, m.bins.value)[i] == BinAt(v, i) + BinAt(m.bins.value, i);
    }
  }

  /** The idle metrics first, then those with calls: the bins of the latter. */
  lemma BusyBins(ms: seq<Metric>, idle: seq<Metric>)
    requires AllWellformed(ms) && HasBusy(ms) && !HasBusyCompact(ms)
    requires AllWellformed(idle) && forall m :: m in idle ==> !IsBusy(m)
    ensures Merge(idle + Busy(ms)).bins.Some? && |Merge(idle + Busy(ms)).bins.value| == BINS
    ensures Merge(idle + Busy(ms)).bins == Merge(Busy(ms)).bins
  {
    BusyFirst(ms);
    PrefixForgotten(idle, Busy(ms));
    PrefixForgotten([], Busy(ms));
    assert [] + Busy(ms) == Busy(ms);
    SameBins(Busy(ms), Merge(idle + Busy(ms)), Merge(Busy(ms)));
    assert !SomeCompact(Busy(ms)) by {
      forall i | 0 <= i < |Busy(ms)|
        ensures Busy(ms)[i].bins.Some?
      {
        assert Busy(ms)[i] in Busy(ms);
      }
    }
  }

  /** A metric that is merged after one with calls. */
  lemma BinsBehind(idle: seq<Metric>, busy: seq<Metric>, x: Metric)
    requires (forall m :: m in idle ==> !IsBusy(m)) && busy != [] && IsBusy(busy[0])
    ensures Merge(idle + busy + [x]).bins == MergeBins(true, Merge(idle + busy).bins, x.bins)
  {
    MergeSnoc(idle + busy, x);
    CounterIs(idle + busy, Calls);
    CallsSum(idle + busy);
    FirstBusyAfter(idle, busy);
  }

  /** `idle` without the element at `k`, and that one behind all others. */
  lemma BehindIsZero(ms: seq<Metric>, idle: seq<Metric>, k: nat)
    requires AllWellformed(ms) && HasBusy(ms) && !HasBusyCompact(ms)
    requires AllWellformed(idle) && (forall m :: m in idle ==> !IsBusy(m)) && k < |idle|
    requires Merge(idle[..k] + idle[k + 1..] + Busy(ms) + [idle[k]]) == Merge(idle + Busy(ms))
    ensures ZeroBins(idle[k])
  {
    var others := idle[..k] + idle[k + 1..];
    assert forall m :: m in others ==> m in idle;
    BusyFirst(ms);
    BusyBins(ms, idle);
    BusyBins(ms, others);
    BinsBehind(others, Busy(ms), idle[k]);
    assert idle[k] in idle;
    AddedNothing(Merge(others + Busy(ms)).bins.value, idle[k]);
  }

  lemma IdleNeedZeroBins(ms: seq<Metric>, x: Metric)
    requires AllWellformed(ms) && HasBusy(ms) && !HasBusyCompact(ms) && AllOrdersAgree(ms)
    requires x in ms && !IsBusy(x)
    ensures ZeroBins(x)
  {
    var idle := Idle(ms);
    assert x in idle;
    var k :| 0 <= k < |idle| && idle[k] == x;
    IdleThenBusy(ms);
    MovedBehind(idle, k, Busy(ms));
    AgreesOn(ms, idle + Busy(ms));
    AgreesOn(ms, idle[..k] + idle[k + 1..] + Busy(ms) + [idle[k]]);
    BehindIsZero(ms, idle, k);
  }

  lemma MovedBehind(idle: seq<Metric>, k: nat, busy: seq<Metric>)
    requires k < |idle|
    ensures multiset(idle[..k] + idle[k + 1..] + busy + [idle[k]]) == multiset(idle + busy)
  {
    assert idle == idle[..k] + [idle[k]] + idle[k + 1..];
  }

  /** For any metrics whatever: all orders of merging agree if and only if nothing has
      calls and all bins are equal, or something with calls is compact, or everything
      without calls has zero bins. */
  lemma OrderMattersExactly(ms: seq<Metric>)
    requires AllWellformed(ms)
    ensures AllOrdersAgree(ms) <==> OrderFree(ms)
  {
    if OrderFree(ms) {
      forall p: seq<Metric> | Reorders(p, ms)
        ensures Merge(p) == Merge(ms)
      {
        OrderFreeAgrees(ms, p);
      }
    }
    if AllOrdersAgree(ms) {
      if !HasBusy(ms) {
        forall x, y | x in ms && y in ms
          ensures x.bins == y.bins
        {
          IdleNeedSameBins(ms, x);
          IdleNeedSameBins(ms, y);
        }
      } else if !HasBusyCompact(ms) {
        forall m | m in ms && !IsBusy(m)
          ensures ZeroBins(m)
        {
          IdleNeedZeroBins(ms, m);
        }
      }
    }
  }
}
