/** Processes that take turns: what finishes when none of them is left waiting forever.

    A system is given by its moves, an invariant, when it is done, how much it has left
    to do, and a process whose next move leaves less.  Its laws are those that make every
    fair schedule finish. */
module Schedules {

  datatype System<!S> = System(
    processes: nat, move: (S, nat) -> S, inv: S -> bool, done: S -> bool, left: S -> int, helper: S -> nat)

  /** A move keeps the invariant and never leaves more to do.  The helper's leaves less;
      one that leaves as much leaves the helper as it is. */
  ghost predicate Settles<S(!new)>(y: System<S>, s: S, p: nat) {
    var t := y.move(s, p);
    && y.inv(t) && y.left(t) <= y.left(s)
    && (y.done(s) ==> y.done(t))
    && (!y.done(s) && p == y.helper(s) ==> y.left(t) < y.left(s))
    && (!y.done(s) && y.left(t) == y.left(s) ==> !y.done(t) && y.helper(t) == y.helper(s))
  }

  ghost predicate Ranked<S(!new)>(y: System<S>, s: S) {
    y.left(s) >= 0 && (!y.done(s) ==> y.helper(s) < y.processes)
  }

  ghost predicate Lawful<S(!new)>(y: System<S>) {
    && (forall s, p: nat :: y.inv(s) && p < y.processes ==> Settles(y, s, p))
    && forall s :: y.inv(s) ==> Ranked(y, s)
  }

  // --- Some continuation finishes --------------------------------------------------

  ghost predicate Next<S(!new)>(y: System<S>, s: S, t: S) {
    exists p: nat :: p < y.processes && t == y.move(s, p)
  }

  ghost function Steps<S(!new)>(y: System<S>): (S, S) -> bool {
    (s, t) => Next(y, s, t)
  }

  ghost predicate Linked<S(!new)>(step: (S, S) -> bool, path: seq<S>, i: int)
    requires 0 <= i < |path| - 1
  {
    step(path[i], path[i + 1])
  }

  /** A sequence of steps. */
  ghost predicate Chain<S(!new)>(step: (S, S) -> bool, path: seq<S>) {
    |path| > 0 && forall i :: 0 <= i < |path| - 1 ==> Linked(step, path, i)
  }

  /** Two chains that meet are one chain. */
  lemma ChainsJoin<S(!new)>(step: (S, S) -> bool, a: seq<S>, b: seq<S>)
    requires Chain(step, a) && Chain(step, b) && a[|a| - 1] == b[0]
    ensures Chain(step, a + b[1..])
  {
    var whole := a + b[1..];
    forall i | 0 <= i < |whole| - 1
      ensures Linked(step, whole, i)
    {
      if i < |a| - 1 {
        assert Linked(step, a, i);
      } else {
        assert Linked(step, b, i - (|a| - 1));
      }
    }
  }

  lemma {:induction false} ChainKeepsInv<S(!new)>(y: System<S>, path: seq<S>, i: nat)
    requires Lawful(y) && Chain(Steps(y), path) && y.inv(path[0]) && i < |path|
    ensures y.inv(path[i])
    decreases i
  {
    if i > 0 {
      ChainKeepsInv(y, path, i - 1);
      assert Linked(Steps(y), path, i - 1);
      var p: nat :| p < y.processes && path[i] == y.move(path[i - 1], p);
      assert Settles(y, path[i - 1], p);
    }
  }

  /** The helper alone leads to the end. */
  lemma {:induction false} CanFinish<S(!new)>(y: System<S>, s: S) returns (path: seq<S>)
    requires Lawful(y) && y.inv(s)
    ensures Chain(Steps(y), path) && path[0] == s && y.done(path[|path| - 1])
    ensures |path| <= y.left(s) + 1
    decreases y.left(s)
  {
    assert Ranked(y, s);
    if y.done(s) {
      path := [s];
    } else {
      assert Settles(y, s, y.helper(s));
      var t := y.move(s, y.helper(s));
      assert Ranked(y, t);
      var rest := CanFinish(y, t);
      assert Next(y, s, t) && Linked(Steps(y), [s, t], 0);
      ChainsJoin(Steps(y), [s, t], rest);
      path := [s, t] + rest[1..];
    }
  }

  // --- Every fair continuation finishes --------------------------------------------

  /** Which process moves at each time. */
  type Schedule = nat -> nat

  /** It names processes of the system. */
  ghost predicate Names<S(!new)>(y: System<S>, who: Schedule) {
    forall n :: who(n) < y.processes
  }

  /** The state at a time. */
  ghost function At<S(!new)>(y: System<S>, s: S, who: Schedule, n: nat): S {
    if n == 0 then s else y.move(At(y, s, who, n - 1), who(n - 1))
  }

  lemma {:induction false} AtKeepsInv<S(!new)>(y: System<S>, s: S, who: Schedule, n: nat)
    requires Lawful(y) && y.inv(s) && Names(y, who)
    ensures y.inv(At(y, s, who, n))
  {
    if n > 0 {
      AtKeepsInv(y, s, who, n - 1);
      assert Settles(y, At(y, s, who, n - 1), who(n - 1));
    }
  }

  lemma {:induction false} LeftNeverGrows<S(!new)>(y: System<S>, s: S, who: Schedule, n: nat, m: nat)
    requires Lawful(y) && y.inv(s) && Names(y, who) && n <= m
    ensures y.left(At(y, s, who, m)) <= y.left(At(y, s, who, n))
    ensures y.done(At(y, s, who, n)) ==> y.done(At(y, s, who, m))
    decreases m
  {
    if n < m {
      LeftNeverGrows(y, s, who, n, m - 1);
      AtKeepsInv(y, s, who, m - 1);
      assert Settles(y, At(y, s, who, m - 1), who(m - 1));
    }
  }

  /** Once the helper has moved there is less to do. */
  lemma {:induction false} HelperComes<S(!new)>(y: System<S>, s: S, who: Schedule, n: nat, k: nat, m: nat)
    requires Lawful(y) && y.inv(s) && Names(y, who) && n <= k < m
    requires !y.done(At(y, s, who, n)) && who(k) == y.helper(At(y, s, who, n))
    ensures y.left(At(y, s, who, m)) < y.left(At(y, s, who, n))
    decreases k - n
  {
    var now, next := At(y, s, who, n), At(y, s, who, n + 1);
    AtKeepsInv(y, s, who, n);
    assert Settles(y, now, who(n));
    LeftNeverGrows(y, s, who, n + 1, m);
    if y.left(next) == y.left(now) {
      HelperComes(y, s, who, n + 1, k, m);
    }
  }

  /** Every process moves at least once. */
  ghost predicate Round<S(!new)>(y: System<S>, who: Schedule, n: nat, m: nat) {
    forall p: nat :: p < y.processes ==> Moves(who, p, n, m)
  }

  ghost predicate Moves(who: Schedule, p: nat, n: nat, m: nat) {
    exists k: nat :: n <= k < m && who(k) == p
  }

  lemma RoundHelps<S(!new)>(y: System<S>, s: S, who: Schedule, n: nat, m: nat)
    requires Lawful(y) && y.inv(s) && Names(y, who) && n <= m && Round(y, who, n, m)
    requires !y.done(At(y, s, who, n))
    ensures y.left(At(y, s, who, m)) < y.left(At(y, s, who, n))
  {
    AtKeepsInv(y, s, who, n);
    var p := y.helper(At(y, s, who, n));
    assert Ranked(y, At(y, s, who, n)) && Moves(who, p, n, m);
    var k: nat :| n <= k < m && who(k) == p;
    HelperComes(y, s, who, n, k, m);
  }

  /** The times `cut(0) <= cut(1) <= ...` divide the schedule into rounds. */
  ghost predicate Divides<S(!new)>(y: System<S>, who: Schedule, cut: nat -> nat) {
    forall i: nat :: cut(i) <= cut(i + 1) && Round(y, who, cut(i), cut(i + 1))
  }

  lemma {:induction false} RoundsFinish<S(!new)>(y: System<S>, s: S, who: Schedule, cut: nat -> nat, i: nat)
    requires Lawful(y) && y.inv(s) && Names(y, who) && Divides(y, who, cut)
    ensures y.done(At(y, s, who, cut(i))) || y.left(At(y, s, who, cut(i))) <= y.left(s) - i
  {
    if i == 0 {
      LeftNeverGrows(y, s, who, 0, cut(0));
    } else {
      RoundsFinish(y, s, who, cut, i - 1);
      assert cut(i - 1) <= cut(i - 1 + 1) && Round(y, who, cut(i - 1), cut(i - 1 + 1));
      LeftNeverGrows(y, s, who, cut(i - 1), cut(i));
      if !y.done(At(y, s, who, cut(i - 1))) {
        RoundHelps(y, s, who, cut(i - 1), cut(i));
      }
    }
  }

  /** After as many rounds as there is to do, everything is done. */
  lemma DoneAfterRounds<S(!new)>(y: System<S>, s: S, who: Schedule, cut: nat -> nat, rounds: nat)
    requires Lawful(y) && y.inv(s) && Names(y, who) && Divides(y, who, cut) && rounds >= y.left(s)
    ensures y.done(At(y, s, who, cut(rounds)))
  {
    RoundsFinish(y, s, who, cut, rounds);
    AtKeepsInv(y, s, who, cut(rounds));
    UndoneHasLeft(y, At(y, s, who, cut(rounds)));
  }

  lemma UndoneHasLeft<S(!new)>(y: System<S>, s: S)
    requires Lawful(y) && y.inv(s)
    ensures y.done(s) || y.left(s) > 0
  {
    assert Ranked(y, s);
    if !y.done(s) {
      assert Settles(y, s, y.helper(s));
      assert Ranked(y, y.move(s, y.helper(s)));
    }
  }

  /** No process is left waiting forever. */
  ghost predicate Fair<S(!new)>(y: System<S>, who: Schedule) {
    forall p: nat, n: nat :: p < y.processes ==> MovesAfter(who, p, n)
  }

  ghost predicate MovesAfter(who: Schedule, p: nat, n: nat) {
    exists k: nat :: n <= k && who(k) == p
  }

  lemma {:induction false} FairFrom<S(!new)>(y: System<S>, s: S, who: Schedule, n: nat) returns (end: nat)
    requires Lawful(y) && y.inv(s) && Names(y, who) && Fair(y, who)
    ensures y.done(At(y, s, who, end))
    decreases y.left(At(y, s, who, n))
  {
    var now := At(y, s, who, n);
    AtKeepsInv(y, s, who, n);
    assert Ranked(y, now);
    if y.done(now) {
      end := n;
    } else {
      assert MovesAfter(who, y.helper(now), n);
      var k: nat :| n <= k && who(k) == y.helper(now);
      HelperComes(y, s, who, n, k, k + 1);
      AtKeepsInv(y, s, who, k + 1);
      assert Ranked(y, At(y, s, who, k + 1));
      end := FairFrom(y, s, who, k + 1);
    }
  }

  /** Done at a time and for good. */
  ghost predicate EndsBy<S(!new)>(y: System<S>, s: S, who: Schedule, end: nat) {
    forall n :: n >= end ==> y.done(At(y, s, who, n))
  }

  /** Every fair schedule comes to an end. */
  lemma FairFinishes<S(!new)>(y: System<S>, s: S, who: Schedule) returns (end: nat)
    requires Lawful(y) && y.inv(s) && Names(y, who) && Fair(y, who)
    ensures EndsBy(y, s, who, end)
  {
    end := FairFrom(y, s, who, 0);
    forall n | n >= end
      ensures y.done(At(y, s, who, n))
    {
      LeftNeverGrows(y, s, who, end, n);
    }
  }
}
