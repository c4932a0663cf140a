/** What every run of the barrier server guarantees. */
module BarrierTheorems {
  import opened Options
  import opened BarrierModel
  import opened BarrierSafety

  lemma StepKeepsInv(expected: set<string>, s: State, t: State, e: Event)
    requires Inv(expected, s) && Enabled(s, e) && t == Apply(expected, s, e)
    ensures Inv(expected, t)
  {
    match e {
      case Accept(_) => AcceptStep(expected, s, t, e);
      case AcceptFails => AcceptStep(expected, s, t, e);
      case Enter(c) => EnterStep(expected, s, t, c);
      case Send(_, _) => SendStep(expected, s, t, e);
      case ClosePeer(_, _) => CloseStep(expected, s, t, e);
      case _ => MoveStep(expected, s, t, e);
    }
  }

  lemma {:induction false} RunInv(expected: set<string>, events: seq<Event>, states: seq<State>, i: nat)
    requires Run(expected, events, states) && i < |states|
    ensures Inv(expected, states[i])
    decreases i
  {
    if i > 0 {
      RunInv(expected, events, states, i - 1);
      assert StepAt(expected, events, states, i - 1);
      StepKeepsInv(expected, states[i - 1], states[i], events[i - 1]);
    }
  }

  /** Both clients arrived at the barrier that `c` arrived at. */
  ghost predicate BothArrived(s: State, c: Conn) {
    exists n :: (n, 0) in s.arrived && (n, 1) in s.arrived && (c == s.arrived[(n, 0)] || c == s.arrived[(n, 1)])
  }

  /** Barrier names behave, and a GO line goes to a connection at most once and only when
      both clients have arrived at its barrier. */
  lemma BarriersAreSafe(expected: set<string>, events: seq<Event>, states: seq<State>, i: nat)
    requires Run(expected, events, states) && i < |states|
    ensures NamesOk(expected, states[i].core)
    ensures forall c :: states[i].go[c] <= 1
    ensures forall c :: c in states[i].go ==> BothArrived(states[i], c)
  {
    RunInv(expected, events, states, i);
    var s := states[i];
    forall c | c in s.go
      ensures BothArrived(s, c) && s.go[c] <= 1
    {
      assert HandlerOk(s, c);
      var k := s.handlers[c].spot.value;
      assert ReleaseOk(s, k.0, 0) && ReleaseOk(s, k.0, 1);
      assert (k.0, 0) in s.arrived && (k.0, 1) in s.arrived;
    }
  }

  /** A releasing handler serves the connections that arrived at its barrier as client 0
      and as client 1, in this order. */
  lemma ReleasesWhoArrived(expected: set<string>, events: seq<Event>, states: seq<State>, i: nat, c: Conn)
    requires Run(expected, events, states) && i < |states|
    requires c in states[i].handlers && states[i].handlers[c].phase.Releasing?
    ensures var s, p := states[i], states[i].handlers[c].phase;
            && (p.name, 0) in s.arrived && (p.name, 1) in s.arrived
            && [p.first, p.second] == [s.arrived[(p.name, 0)], s.arrived[(p.name, 1)]]
            && p.index <= 1 && Peer(p) == s.arrived[(p.name, p.index)]
  {
    RunInv(expected, events, states, i);
    assert HandlerOk(states[i], c);
  }

  /** Failures of the listener and of handlers in the first `n` events. */
  function Failures(events: seq<Event>, n: nat): nat
    requires n <= |events|
  {
    if n == 0 then 0 else Failures(events, n - 1) + if events[n - 1].AcceptFails? || events[n - 1].Record? then 1 else 0
  }

  /** One error is recorded for every failure. */
  lemma {:induction false} ErrorsAreFailures(expected: set<string>, events: seq<Event>, states: seq<State>, i: nat)
    requires Run(expected, events, states) && i < |states|
    ensures states[i].core.errors == Failures(events, i)
    decreases i
  {
    if i > 0 {
      ErrorsAreFailures(expected, events, states, i - 1);
      assert StepAt(expected, events, states, i - 1);
    }
  }

  // --- Handlers never get stuck ----------------------------------------------------

  /** The handler that an event belongs to; accepting belongs to none. */
  predicate ActsFor(e: Event, c: Conn) {
    !e.Accept? && !e.AcceptFails? && e.conn == c
  }

  /** Steps that a handler has ahead of it, at most. */
  function Ahead(p: Phase): nat {
    match p
    case Receiving => 9
    case Arriving(_, _) => 8
    case Releasing(_, _, _, index, closing, _) => if index == 0 then (if closing then 6 else 7) else if closing then 4 else 5
    case Failing => 3
    case Ending => 2
    case Closing => 1
    case Finished => 0
  }

  /** A handler that has not finished can always go on, and the listener can fail at any
      time. */
  lemma HandlersGoOn(s: State, c: Conn) returns (e: Event)
    requires c in s.handlers && !s.handlers[c].phase.Finished?
    ensures ActsFor(e, c) && Enabled(s, e)
    ensures Enabled(s, AcceptFails)
  {
    match s.handlers[c].phase {
      case Receiving => e := Receive(c, Unreadable);
      case Arriving(_, _) => e := Enter(c);
      case Releasing(_, _, _, _, closing, _) => e := if closing then ClosePeer(c, true) else Send(c, true);
      case Failing => e := Record(c);
      case Ending => e := End(c);
      case Closing => e := CloseOwn(c);
    }
  }

  /** Its own steps bring it closer to its end, and no other step touches it. */
  lemma HandlersEnd(expected: set<string>, s: State, c: Conn, e: Event)
    requires c in s.handlers && Enabled(s, e)
    ensures c in Apply(expected, s, e).handlers
    ensures var p, q := s.handlers[c].phase, Apply(expected, s, e).handlers[c].phase;
            if ActsFor(e, c) then Ahead(q) < Ahead(p) else q == p
  {
  }

  // --- Where the connections end up ------------------------------------------------

  lemma EveryConnectionAccountedFor(expected: set<string>, s: State, c: Conn)
    requires Inv(expected, s) && AllFinished(s) && c in s.handlers
    ensures c in s.closed || Parked(s, c) || c in s.skipped
  {
  }

  lemma SkippedIsLost(expected: set<string>, s: State, c: Conn)
    requires Inv(expected, s) && c in s.skipped
    ensures c in s.handlers && c !in s.closed && !Parked(s, c)
  {
  }

  /** A close of the first peer of a release raised. */
  ghost predicate FirstCloseRaised(s: State, e: Event) {
    && e.ClosePeer? && !e.ok && Enabled(s, e) && s.handlers[e.conn].phase.index == 0
  }

  ghost predicate RaisedBefore(events: seq<Event>, states: seq<State>, i: int)
    requires |states| == |events| + 1
  {
    exists j :: 0 <= j < i && j < |events| && FirstCloseRaised(states[j], events[j])
  }

  lemma {:induction false} SkippedWhenRaised(expected: set<string>, events: seq<Event>, states: seq<State>, i: nat)
    requires Run(expected, events, states) && i < |states|
    ensures states[i].skipped != {} <==> RaisedBefore(events, states, i)
    decreases i
  {
    if i > 0 {
      SkippedWhenRaised(expected, events, states, i - 1);
      assert StepAt(expected, events, states, i - 1);
      var s, t, e := states[i - 1], states[i], events[i - 1];
      if FirstCloseRaised(s, e) {
        assert Peer(s.handlers[e.conn].phase.(index := 1)) in t.skipped;
      } else {
        assert t.skipped == s.skipped;
      }
    }
  }

  /** When all handlers have finished, every accepted connection is closed or parked if
      and only if no close of a first peer raised during the run. */
  lemma ClosedOrParked(expected: set<string>, events: seq<Event>, states: seq<State>)
    requires Run(expected, events, states) && AllFinished(states[|events|])
    ensures (forall c :: c in states[|events|].handlers ==> c in states[|events|].closed || Parked(states[|events|], c))
            <==> !RaisedBefore(events, states, |events|)
  {
    var s := states[|events|];
    RunInv(expected, events, states, |events|);
    SkippedWhenRaised(expected, events, states, |events|);
    forall c | c in s.handlers
      ensures c in s.closed || Parked(s, c) || c in s.skipped
    {
      EveryConnectionAccountedFor(expected, s, c);
    }
    if s.skipped != {} {
      var c :| c in s.skipped;
      SkippedIsLost(expected, s, c);
    }
  }

  // --- What a successful assert_complete means -------------------------------------

  /** Each expected barrier was reached exactly once by each client: the arrivals are
      exactly one connection per barrier and client, all different. */
  lemma CompleteMeansReached(expected: set<string>, events: seq<Event>, states: seq<State>, i: nat)
    requires Run(expected, events, states) && i < |states|
    requires AssertComplete(expected, states[i].core)
    ensures states[i].arrived.Keys == set n, client | n in expected && client in {0, 1} :: (n, client)
    ensures forall k1, k2 :: k1 in states[i].arrived && k2 in states[i].arrived && k1 != k2 ==>
              states[i].arrived[k1] != states[i].arrived[k2]
  {
    RunInv(expected, events, states, i);
    ArrivedWhereExpected(expected, states[i]);
  }

  lemma CompletedAreExpected(expected: set<string>, core: Core, n: string)
    requires AssertComplete(expected, core)
    ensures n in expected <==> n in core.completed
  {
    assert n in (set m | m in core.completed) <==> n in core.completed;
  }

  lemma ArrivedWhereExpected(expected: set<string>, s: State)
    requires AssertComplete(expected, s.core) && HistoryOk(s) && CompletedKnown(s)
    ensures s.arrived.Keys == set n, client | n in expected && client in {0, 1} :: (n, client)
  {
    forall k | k in s.arrived
      ensures k.0 in expected && k.1 in {0, 1} && k == (k.0, k.1)
    {
      CompletedAreExpected(expected, s.core, k.0);
    }
    forall n | n in expected
      ensures (n, 0) in s.arrived && (n, 1) in s.arrived
    {
      CompletedAreExpected(expected, s.core, n);
    }
  }

  /** If moreover all handlers have finished, then every accepted connection arrived at
      an expected barrier, got its GO line exactly once and is closed. */
  lemma CompleteMeansReleased(expected: set<string>, events: seq<Event>, states: seq<State>, i: nat)
    requires Run(expected, events, states) && i < |states|
    requires AssertComplete(expected, states[i].core) && AllFinished(states[i])
    ensures forall c :: c in states[i].handlers ==>
              && states[i].handlers[c].spot.Some? && states[i].handlers[c].spot.value.0 in expected
              && states[i].go[c] == 1 && c in states[i].closed
  {
    RunInv(expected, events, states, i);
    var s := states[i];
    forall c | c in s.handlers
      ensures s.handlers[c].spot.Some? && s.handlers[c].spot.value.0 in expected && s.go[c] == 1 && c in s.closed
    {
      assert HandlerOk(s, c);
      var k := s.handlers[c].spot.value;
      assert k.0 in s.core.completed;
      assert ReleaseOk(s, k.0, k.1);
    }
  }

  // --- A run in which a connection is lost -----------------------------------------

  /** A run goes on with an event that leads to `t`. */
  lemma Extend(expected: set<string>, events: seq<Event>, states: seq<State>, e: Event, t: State)
      returns (events': seq<Event>, states': seq<State>)
    requires Run(expected, events, states)
    requires Enabled(states[|events|], e) && t == Apply(expected, states[|events|], e)
    ensures Run(expected, events', states') && states'[|events'|] == t
  {
    events', states' := events + [e], states + [t];
    forall i | 0 <= i < |events'|
      ensures StepAt(expected, events', states', i)
    {
      if i < |events| {
        assert StepAt(expected, events, states, i);
      }
    }
  }

  /** Client 0 is parked at the barrier and its handler is done. */
  const OneParked := State(
    Core(map["a" := map[0 := 0]], [], 0, {}), map[0 := Handler(Finished, Some(("a", 0)))],
    {}, multiset{}, map[("a", 0) := 0], map[], {})

  /** Client 1 has arrived too and its handler is about to release both. */
  const BothMet := State(
    Core(map[], ["a"], 0, {1}),
    map[0 := Handler(Finished, Some(("a", 0))), 1 := Handler(Releasing("a", 0, 1, 0, false, false), Some(("a", 1)))],
    {}, multiset{}, map[("a", 0) := 0, ("a", 1) := 1], map["a" := 1], {})

  /** The end of the run. */
  const OneLost := State(
    Core(map[], ["a"], 1, {}),
    map[0 := Handler(Finished, Some(("a", 0))), 1 := Handler(Finished, Some(("a", 1)))],
    {0}, multiset{0}, map[("a", 0) := 0, ("a", 1) := 1], map["a" := 1], {1})

  lemma ReachOneParked() returns (events: seq<Event>, states: seq<State>)
    ensures Run({"a"}, events, states) && states[|events|] == OneParked
  {
    events, states := [], [Initial];
    var s := Initial.(core := Initial.core.(active := {0}), handlers := map[0 := Handler(Receiving, None)]);
    events, states := Extend({"a"}, events, states, Accept(0), s);
    s := s.(handlers := map[0 := Handler(Arriving("a", 0), None)]);
    events, states := Extend({"a"}, events, states, Receive(0, Fields(["a", "0"])), s);
    s := OneParked.(core := OneParked.core.(active := {0}), handlers := map[0 := Handler(Ending, Some(("a", 0)))]);
    events, states := Extend({"a"}, events, states, Enter(0), s);
    events, states := Extend({"a"}, events, states, End(0), OneParked);
  }

  /** Client 1 is about to arrive. */
  const OneComes := OneParked.(
    core := OneParked.core.(active := {1}),
    handlers := map[0 := Handler(Finished, Some(("a", 0))), 1 := Handler(Arriving("a", 1), None)])

  lemma ReachOneComes() returns (events: seq<Event>, states: seq<State>)
    ensures Run({"a"}, events, states) && states[|events|] == OneComes
  {
    events, states := ReachOneParked();
    var done := Handler(Finished, Some(("a", 0)));
    var s := OneParked.(core := OneParked.core.(active := {1}), handlers := map[0 := done, 1 := Handler(Receiving, None)]);
    events, states := Extend({"a"}, events, states, Accept(1), s);
    events, states := Extend({"a"}, events, states, Receive(1, Fields(["a", "1"])), OneComes);
  }

  lemma OneMeets()
    ensures Enabled(OneComes, Enter(1)) && Apply({"a"}, OneComes, Enter(1)) == BothMet
  {
    assert map[0 := 0][1 := 1].Keys == {0, 1};
  }

  lemma ReachBothMet() returns (events: seq<Event>, states: seq<State>)
    ensures Run({"a"}, events, states) && states[|events|] == BothMet
  {
    events, states := ReachOneComes();
    OneMeets();
    events, states := Extend({"a"}, events, states, Enter(1), BothMet);
  }

  /** Closing client 0 has raised in the handler of client 1. */
  const CloseRaised := OneLost.(
    core := Core(map[], ["a"], 0, {1}),
    handlers := map[0 := Handler(Finished, Some(("a", 0))), 1 := Handler(Failing, Some(("a", 1)))])

  lemma ReachCloseRaised() returns (events: seq<Event>, states: seq<State>)
    ensures Run({"a"}, events, states) && states[|events|] == CloseRaised
  {
    events, states := ReachBothMet();
    var done := Handler(Finished, Some(("a", 0)));
    var s := BothMet.(go := multiset{0},
                      handlers := map[0 := done, 1 := Handler(Releasing("a", 0, 1, 0, true, false), Some(("a", 1)))]);
    events, states := Extend({"a"}, events, states, Send(1, true), s);
    events, states := Extend({"a"}, events, states, ClosePeer(1, false), CloseRaised);
  }

  /** Two clients meet at one barrier, and closing the first raises: the second is sent
      no GO line, is not closed and is not parked. */
  lemma LostConnection() returns (events: seq<Event>, states: seq<State>)
    ensures Run({"a"}, events, states) && states[|events|] == OneLost && AllFinished(OneLost)
    ensures 1 in OneLost.handlers && 1 !in OneLost.closed && !Parked(OneLost, 1) && 1 !in OneLost.go
  {
    events, states := ReachCloseRaised();
    var s := CloseRaised.(
      core := Core(map[], ["a"], 1, {1}),
      handlers := map[0 := Handler(Finished, Some(("a", 0))), 1 := Handler(Ending, Some(("a", 1)))]);
    events, states := Extend({"a"}, events, states, Record(1), s);
    events, states := Extend({"a"}, events, states, End(1), OneLost);
  }
}
