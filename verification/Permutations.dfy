/** Folding a sequence with steps that commute does not depend on its order. */
module Permutations {

  function Fold<S, T>(f: (S, T) -> S, s: S, xs: seq<T>): S {
    if xs == [] then s else f(Fold(f, s, xs[..|xs| - 1]), xs[|xs| - 1])
  }

  lemma FoldSnoc<S, T>(f: (S, T) -> S, s: S, xs: seq<T>, x: T)
    ensures Fold(f, s, xs + [x]) == f(Fold(f, s, xs), x)
  {
  }

  ghost predicate Commutes<S(!new), T(!new)>(f: (S, T) -> S) {
    forall s, x, y :: f(f(s, x), y) == f(f(s, y), x)
  }

  lemma {:induction false} FoldLast<S(!new), T(!new)>(f: (S, T) -> S, s: S, xs: seq<T>, x: T, ys: seq<T>)
    requires Commutes(f)
    ensures Fold(f, s, xs + [x] + ys) == f(Fold(f, s, xs + ys), x)
    decreases |ys|
  {
    if ys == [] {
      assert xs + [x] + ys == xs + [x] && xs + ys == xs;
      FoldSnoc(f, s, xs, x);
    } else {
      var init, y := ys[..|ys| - 1], ys[|ys| - 1];
      FoldLast(f, s, xs, x, init);
      assert xs + [x] + ys == xs + [x] + init + [y] && xs + ys == xs + init + [y];
      FoldSnoc(f, s, xs + [x] + init, y);
      FoldSnoc(f, s, xs + init, y);
    }
  }

  lemma {:induction false} FoldPermutation<S(!new), T(!new)>(f: (S, T) -> S, s: S, a: seq<T>, b: seq<T>)
    requires Commutes(f) && multiset(a) == multiset(b)
    ensures Fold(f, s, a) == Fold(f, s, b)
    decreases |a|
  {
    if a == [] {
      assert |multiset(b)| == 0;
    } else {
      var init, x := a[..|a| - 1], a[|a| - 1];
      assert a == init + [x];
      var k := Find(b, x);
      var rest := b[..k] + b[k + 1..];
      assert b == b[..k] + [x] + b[k + 1..];
      assert multiset(a) == multiset(init) + multiset{x};
      assert multiset(b) == multiset(b[..k]) + multiset{x} + multiset(b[k + 1..]);
      assert multiset(rest) == multiset(b[..k]) + multiset(b[k + 1..]);
      assert multiset(init) == multiset(a) - multiset{x} == multiset(rest);
      FoldPermutation(f, s, init, rest);
      FoldLast(f, s, b[..k], x, b[k + 1..]);
    }
  }

  lemma Find<T>(b: seq<T>, x: T) returns (k: nat)
    requires x in multiset(b)
    ensures k < |b| && b[k] == x
  {
    assert x in b;
    k :| 0 <= k < |b| && b[k] == x;
  }

  function Range(n: nat): (r: seq<int>)
    ensures |r| == n && forall i :: 0 <= i < n ==> r[i] == i
  {
    seq(n, i => i)
  }

  predicate Distinct(s: seq<int>) {
    forall i, j :: 0 <= i < j < |s| ==> s[i] != s[j]
  }

  lemma {:induction false} DistinctCounts(s: seq<int>, x: int)
    requires Distinct(s)
    ensures multiset(s)[x] == if x in s then 1 else 0
  {
    if s != [] {
      var init, last := s[..|s| - 1], s[|s| - 1];
      assert s == init + [last];
      DistinctCounts(init, x);
    }
  }

  /** A sequence that holds each index once is a permutation of them. */
  lemma IndicesPermute(m: seq<int>, n: nat)
    requires Distinct(m) && forall x :: x in m <==> 0 <= x < n
    ensures multiset(m) == multiset(Range(n))
  {
    forall x: int
      ensures multiset(m)[x] == multiset(Range(n))[x]
    {
      DistinctCounts(m, x);
      DistinctCounts(Range(n), x);
      if 0 <= x < n {
        assert Range(n)[x] == x;
      }
    }
  }
}
