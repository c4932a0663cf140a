/** Safety of the barrier server over every run. */
module BarrierSafety {
  import opened Options
  import opened BarrierModel

  // --- The invariant ---------------------------------------------------------------

  ghost predicate Distinct(names: seq<string>) {
    forall i, j :: 0 <= i < j < |names| ==> names[i] != names[j]
  }

  /** Barrier names: completed once, never pending and completed at the same time, and a
      pending barrier has exactly one client. */
  ghost predicate NamesOk(expected: set<string>, core: Core) {
    && Distinct(core.completed)
    && (forall n :: n in core.completed ==> n in expected)
    && (forall n :: n in core.arrivals ==>
          n in expected && n !in core.completed && (core.arrivals[n].Keys == {0} || core.arrivals[n].Keys == {1}))
  }

  /** The history of arrivals agrees with the handlers, and every arrival is parked or at
      a completed barrier. */
  ghost predicate HistoryOk(s: State) {
    forall k :: k in s.arrived ==>
      && (k.1 == 0 || k.1 == 1)
      && s.arrived[k] in s.handlers && s.handlers[s.arrived[k]].spot == Some(k)
      && (k.0 in s.core.completed || (k.0 in s.core.arrivals && k.1 in s.core.arrivals[k.0]))
  }

  ghost predicate ParkedKnown(s: State) {
    forall n, i :: n in s.core.arrivals && i in s.core.arrivals[n] ==>
      (n, i) in s.arrived && s.arrived[(n, i)] == s.core.arrivals[n][i]
  }

  ghost predicate CompletedKnown(s: State) {
    forall n :: n in s.core.completed ==> (n, 0) in s.arrived && (n, 1) in s.arrived && n in s.opener
  }

  ghost predicate KeysOk(s: State) {
    HistoryOk(s) && ParkedKnown(s) && CompletedKnown(s)
  }

  /** The connections to be released are those that arrived as client 0 and client 1. */
  ghost predicate HoldsPeers(s: State, p: Phase)
    requires p.Releasing?
  {
    && (p.name, 0) in s.arrived && p.first == s.arrived[(p.name, 0)]
    && (p.name, 1) in s.arrived && p.second == s.arrived[(p.name, 1)]
  }

  /** A handler's program point, what it retained and what it may still do. */
  ghost predicate HandlerOk(s: State, c: Conn)
    requires c in s.handlers
  {
    var h := s.handlers[c];
    && (h.spot.Some? ==> h.spot.value in s.arrived && s.arrived[h.spot.value] == c)
    && (h.phase.Receiving? || h.phase.Arriving? || h.phase.Closing? ==> h.spot.None?)
    && (h.phase.Arriving? ==> h.phase.client == 0 || h.phase.client == 1)
    && (h.phase.Releasing? ==>
          h.phase.index <= 1 && h.spot.Some? && h.phase.name in s.core.completed
          && h.phase.name in s.opener && s.opener[h.phase.name] == c && HoldsPeers(s, h.phase))
    && (h.spot.None? && (h.phase.Ending? || h.phase.Closing? || h.phase.Finished?) ==> s.core.errors > 0)
    && (h.spot.None? ==> (h.phase.Finished? <==> c in s.closed))
    && (h.spot.None? ==> c !in s.go)
    && (h.phase.Finished? || h.phase.Closing? <==> c !in s.core.active)
  }

  ghost predicate Attempted(p: Phase, index: nat) {
    p.Releasing? ==> index < p.index || (index == p.index && p.closing)
  }

  /** The release of a completed barrier, as far as its opener has come. */
  ghost predicate ReleaseOk(s: State, n: string, index: nat)
    requires (n, index) in s.arrived && n in s.opener && s.opener[n] in s.handlers
  {
    var peer := s.arrived[(n, index)];
    var h := s.handlers[s.opener[n]];
    && h.spot.Some? && h.spot.value.0 == n
    && (h.phase.Releasing? ==> h.phase.name == n)
    && s.go[peer] <= 1
    && (!Attempted(h.phase, index) ==> s.go[peer] == 0)
    && (h.phase.Releasing? && h.phase.index <= index ==> peer !in s.closed)
    && (h.phase.Releasing? && !h.phase.failed && Attempted(h.phase, index) ==> s.go[peer] == 1)
    && (!h.phase.Releasing? || index < h.phase.index ==> peer in s.closed || peer in s.skipped)
    && (peer in s.skipped ==>
          index == 1 && !h.phase.Releasing? && peer !in s.closed && (h.phase.Failing? || s.core.errors > 0))
    && (h.phase.Ending? || h.phase.Finished? ==> s.core.errors > 0 || (s.go[peer] == 1 && peer in s.closed))
  }

  ghost predicate ParkedAlone(s: State, c: Conn) {
    c !in s.go && c !in s.skipped && c !in s.closed
  }

  /** Nothing was sent to a parked connection, and it is open. */
  ghost predicate ParkedOk(s: State) {
    forall n, i :: n in s.core.arrivals && i in s.core.arrivals[n] ==>
      ParkedAlone(s, s.core.arrivals[n][i])
  }

  ghost predicate HandlersOk(s: State) {
    forall c :: c in s.handlers ==> HandlerOk(s, c)
  }

  ghost predicate ReleasesOk(s: State) {
    forall n :: n in s.core.completed ==>
      && n in s.opener && s.opener[n] in s.handlers
      && (n, 0) in s.arrived && ReleaseOk(s, n, 0)
      && (n, 1) in s.arrived && ReleaseOk(s, n, 1)
  }

  /** Only connections of completed barriers were sent to or skipped. */
  ghost predicate SentOk(s: State) {
    && (forall c :: c in s.go ==> c in s.handlers)
    && (forall c :: c in s.closed ==> c in s.handlers)
    && (forall c :: c in s.skipped ==> c in s.handlers && s.handlers[c].spot.Some?)
  }

  ghost predicate Inv(expected: set<string>, s: State) {
    NamesOk(expected, s.core) && KeysOk(s) && HandlersOk(s) && ReleasesOk(s) && ParkedOk(s) && SentOk(s)
  }

  // --- What a step leaves alone ----------------------------------------------------

  /** `t` follows `s` by a step other than an arrival: nothing is forgotten and no
      handler changes what it retained. */
  ghost predicate Continues(s: State, t: State) {
    && t.core.arrivals == s.core.arrivals && t.core.completed == s.core.completed
    && t.arrived == s.arrived && t.opener == s.opener
    && t.core.errors >= s.core.errors && s.closed <= t.closed
    && (forall c :: c in s.handlers ==> c in t.handlers && t.handlers[c].spot == s.handlers[c].spot)
  }

  lemma ContinuesKeeps(expected: set<string>, s: State, t: State)
    requires Continues(s, t) && NamesOk(expected, s.core) && KeysOk(s)
    ensures NamesOk(expected, t.core) && KeysOk(t)
  {
  }

  lemma HandlerStays(s: State, t: State, c: Conn)
    requires Continues(s, t) && c in s.handlers && HandlerOk(s, c)
    requires t.handlers[c] == s.handlers[c] && (c in t.core.active <==> c in s.core.active)
    requires s.handlers[c].spot.None? ==> c !in t.go && (c in t.closed <==> c in s.closed)
    ensures HandlerOk(t, c)
  {
  }

  /** The release of barrier `n` to peer `index` is not touched by the step. */
  ghost predicate Untouched(s: State, t: State, n: string, index: nat)
    requires (n, index) in s.arrived && n in s.opener && s.opener[n] in s.handlers
  {
    var peer := s.arrived[(n, index)];
    && s.opener[n] in t.handlers && t.handlers[s.opener[n]] == s.handlers[s.opener[n]]
    && t.go[peer] == s.go[peer]
    && (peer in t.skipped <==> peer in s.skipped)
    && (peer in t.closed <==> peer in s.closed)
  }

  lemma ReleaseStays(s: State, t: State, n: string, index: nat)
    requires Continues(s, t)
    requires (n, index) in s.arrived && n in s.opener && s.opener[n] in s.handlers
    requires ReleaseOk(s, n, index) && Untouched(s, t, n, index)
    ensures ReleaseOk(t, n, index)
  {
  }

  // --- Accepting and receiving -----------------------------------------------------

  /** A step that sends, closes and skips nothing, and changes the program point of no
      handler that opened a barrier, keeps all releases. */
  lemma QuietReleases(s: State, t: State)
    requires Continues(s, t) && ReleasesOk(s)
    requires t.go == s.go && t.closed == s.closed && t.skipped == s.skipped
    requires forall c :: c in s.handlers && s.handlers[c].spot.Some? ==> t.handlers[c] == s.handlers[c]
    ensures ReleasesOk(t)
  {
  }

  lemma AcceptKeepsHandlers(expected: set<string>, s: State, t: State, e: Event)
    requires HandlersOk(s) && SentOk(s) && Continues(s, t)
    requires Enabled(s, e) && (e.Accept? || e.AcceptFails?) && t == Apply(expected, s, e)
    ensures HandlersOk(t)
  {
  }

  lemma AcceptContinues(expected: set<string>, s: State, t: State, e: Event)
    requires ParkedOk(s) && SentOk(s)
    requires Enabled(s, e) && (e.Accept? || e.AcceptFails?) && t == Apply(expected, s, e)
    ensures Continues(s, t) && ParkedOk(t) && SentOk(t)
  {
  }

  lemma AcceptStep(expected: set<string>, s: State, t: State, e: Event)
    requires Inv(expected, s) && Enabled(s, e) && (e.Accept? || e.AcceptFails?) && t == Apply(expected, s, e)
    ensures Inv(expected, t)
  {
    AcceptContinues(expected, s, t, e);
    ContinuesKeeps(expected, s, t);
    AcceptKeepsHandlers(expected, s, t, e);
    QuietReleases(s, t);
  }

  /** Receiving a request, recording an error, leaving `active_connections` and closing
      the handler's own connection. */
  predicate Moves(e: Event) {
    e.Receive? || e.Record? || e.End? || e.CloseOwn?
  }

  lemma MoveKeepsHandlers(expected: set<string>, s: State, t: State, e: Event)
    requires Enabled(s, e) && Moves(e) && t == Apply(expected, s, e) && Continues(s, t) && HandlersOk(s)
    ensures HandlersOk(t)
  {
    forall c | c in t.handlers
      ensures HandlerOk(t, c)
    {
      assert HandlerOk(s, c);
      if c != e.conn {
        HandlerStays(s, t, c);
      }
    }
  }

  lemma MoveKeepsReleases(expected: set<string>, s: State, t: State, e: Event)
    requires Enabled(s, e) && Moves(e) && t == Apply(expected, s, e) && Continues(s, t)
    requires KeysOk(s) && HandlerOk(s, e.conn) && ReleasesOk(s)
    ensures ReleasesOk(t)
  {
    forall n | n in t.core.completed
      ensures t.opener[n] in t.handlers && ReleaseOk(t, n, 0) && ReleaseOk(t, n, 1)
    {
      assert ReleaseOk(s, n, 0) && ReleaseOk(s, n, 1);
      if s.opener[n] != e.conn {
        ReleaseStays(s, t, n, 0);
        ReleaseStays(s, t, n, 1);
      }
    }
  }

  lemma MoveContinues(expected: set<string>, s: State, t: State, e: Event)
    requires Enabled(s, e) && Moves(e) && t == Apply(expected, s, e)
    ensures Continues(s, t) && t.go == s.go && t.skipped == s.skipped
    ensures forall c :: c in t.closed ==> c in s.closed || (c == e.conn && c in s.handlers && s.handlers[c].phase.Closing?)
    ensures forall c :: c in t.handlers ==> c in s.handlers
  {
  }

  lemma MoveKeepsParked(expected: set<string>, s: State, t: State, e: Event)
    requires Enabled(s, e) && Moves(e) && t == Apply(expected, s, e)
    requires KeysOk(s) && HandlerOk(s, e.conn) && ParkedOk(s)
    ensures ParkedOk(t)
  {
    MoveContinues(expected, s, t, e);
    forall n, i | n in t.core.arrivals && i in t.core.arrivals[n]
      ensures ParkedAlone(t, t.core.arrivals[n][i])
    {
      assert ParkedAlone(s, s.core.arrivals[n][i]) && (n, i) in s.arrived;
    }
  }

  lemma MoveKeepsSent(expected: set<string>, s: State, t: State, e: Event)
    requires Enabled(s, e) && Moves(e) && t == Apply(expected, s, e) && SentOk(s)
    ensures SentOk(t)
  {
    MoveContinues(expected, s, t, e);
  }

  lemma MoveStep(expected: set<string>, s: State, t: State, e: Event)
    requires Inv(expected, s) && Enabled(s, e) && Moves(e) && t == Apply(expected, s, e)
    ensures Inv(expected, t)
  {
    MoveContinues(expected, s, t, e);
    ContinuesKeeps(expected, s, t);
    MoveKeepsHandlers(expected, s, t, e);
    assert HandlerOk(s, e.conn);
    MoveKeepsReleases(expected, s, t, e);
    MoveKeepsParked(expected, s, t, e);
    MoveKeepsSent(expected, s, t, e);
  }

  // --- Releasing -------------------------------------------------------------------

  /** Peers of different barriers, or the two peers of one, are different connections. */
  lemma PeersDiffer(s: State, k1: (string, int), k2: (string, int))
    requires KeysOk(s) && k1 in s.arrived && k2 in s.arrived && k1 != k2
    ensures s.arrived[k1] != s.arrived[k2]
  {
  }

  lemma ParkedIsNoPeer(expected: set<string>, s: State, n: string, i: int, k: (string, int))
    requires NamesOk(expected, s.core) && KeysOk(s)
    requires n in s.core.arrivals && i in s.core.arrivals[n] && k in s.arrived && k.0 in s.core.completed
    ensures s.core.arrivals[n][i] != s.arrived[k]
  {
  }

  /** What a releasing handler and the peer it serves know of each other. */
  ghost predicate Serves(s: State, c: Conn, peer: (string, int)) {
    && KeysOk(s) && c in s.handlers && s.handlers[c].phase.Releasing? && HandlerOk(s, c)
    && peer == (s.handlers[c].phase.name, if s.handlers[c].phase.index == 0 then 0 else 1) && peer in s.arrived
  }

  lemma SendKeepsRelease(expected: set<string>, s: State, t: State, e: Event, mine: (string, int), n: string, index: nat)
    requires Enabled(s, e) && e.Send? && t == Apply(expected, s, e) && Continues(s, t) && Serves(s, e.conn, mine)
    requires (n, index) in s.arrived && n in s.opener && s.opener[n] in s.handlers && ReleaseOk(s, n, index)
    ensures ReleaseOk(t, n, index)
  {
    if (n, index) != mine {
      PeersDiffer(s, (n, index), mine);
    }
    if n != mine.0 {
      ReleaseStays(s, t, n, index);
    }
  }

  lemma SendKeepsHandlers(expected: set<string>, s: State, t: State, e: Event, mine: (string, int))
    requires Enabled(s, e) && e.Send? && t == Apply(expected, s, e) && Continues(s, t) && Serves(s, e.conn, mine)
    requires HandlersOk(s)
    ensures HandlersOk(t)
  {
    forall c | c in t.handlers
      ensures HandlerOk(t, c)
    {
      assert HandlerOk(s, c);
      if c != e.conn {
        HandlerStays(s, t, c);
      }
    }
  }

  lemma SendKeepsReleases(expected: set<string>, s: State, t: State, e: Event, mine: (string, int))
    requires Enabled(s, e) && e.Send? && t == Apply(expected, s, e) && Continues(s, t) && Serves(s, e.conn, mine)
    requires ReleasesOk(s)
    ensures ReleasesOk(t)
  {
    forall n | n in t.core.completed
      ensures t.opener[n] in t.handlers && ReleaseOk(t, n, 0) && ReleaseOk(t, n, 1)
    {
      SendKeepsRelease(expected, s, t, e, mine, n, 0);
      SendKeepsRelease(expected, s, t, e, mine, n, 1);
    }
  }

  lemma SendKeepsParked(expected: set<string>, s: State, t: State, e: Event, mine: (string, int))
    requires Enabled(s, e) && e.Send? && t == Apply(expected, s, e) && Continues(s, t) && Serves(s, e.conn, mine)
    requires NamesOk(expected, s.core) && ParkedOk(s)
    ensures ParkedOk(t)
  {
    SendChanges(expected, s, t, e, mine);
    forall n, i | n in t.core.arrivals && i in t.core.arrivals[n]
      ensures ParkedAlone(t, t.core.arrivals[n][i])
    {
      assert ParkedAlone(s, s.core.arrivals[n][i]);
      ParkedIsNoPeer(expected, s, n, i, mine);
    }
  }

  lemma SendChanges(expected: set<string>, s: State, t: State, e: Event, mine: (string, int))
    requires Enabled(s, e) && e.Send? && t == Apply(expected, s, e) && Serves(s, e.conn, mine)
    ensures t.skipped == s.skipped && t.closed == s.closed
    ensures forall c :: c != s.arrived[mine] ==> t.go[c] == s.go[c]
  {
  }

  lemma SendKeepsSent(expected: set<string>, s: State, t: State, e: Event, mine: (string, int))
    requires Enabled(s, e) && e.Send? && t == Apply(expected, s, e) && Continues(s, t) && Serves(s, e.conn, mine)
    requires SentOk(s)
    ensures SentOk(t)
  {
  }

  lemma SendStep(expected: set<string>, s: State, t: State, e: Event)
    requires Inv(expected, s) && Enabled(s, e) && e.Send? && t == Apply(expected, s, e)
    ensures Inv(expected, t)
  {
    var p := s.handlers[e.conn].phase;
    assert HandlerOk(s, e.conn);
    assert Continues(s, t);
    ContinuesKeeps(expected, s, t);
    var mine := (p.name, if p.index == 0 then 0 else 1);
    SendKeepsHandlers(expected, s, t, e, mine);
    SendKeepsReleases(expected, s, t, e, mine);
    SendKeepsParked(expected, s, t, e, mine);
    SendKeepsSent(expected, s, t, e, mine);
  }

  lemma CloseKeepsRelease(expected: set<string>, s: State, t: State, e: Event, mine: (string, int), n: string, index: nat)
    requires Enabled(s, e) && e.ClosePeer? && t == Apply(expected, s, e) && Continues(s, t) && Serves(s, e.conn, mine)
    requires (mine.0, 1) in s.arrived
    requires (n, index) in s.arrived && n in s.opener && s.opener[n] in s.handlers && ReleaseOk(s, n, index)
    ensures ReleaseOk(t, n, index)
  {
    if (n, index) != (mine.0, 1) {
      PeersDiffer(s, (n, index), (mine.0, 1));
    }
    if (n, index) != mine {
      PeersDiffer(s, (n, index), mine);
    }
    if n != mine.0 {
      ReleaseStays(s, t, n, index);
    }
  }

  lemma CloseKeepsHandlers(expected: set<string>, s: State, t: State, e: Event, mine: (string, int))
    requires Enabled(s, e) && e.ClosePeer? && t == Apply(expected, s, e) && Continues(s, t) && Serves(s, e.conn, mine)
    requires HandlersOk(s)
    ensures HandlersOk(t)
  {
    forall c | c in t.handlers
      ensures HandlerOk(t, c)
    {
      assert HandlerOk(s, c);
      if c != e.conn {
        HandlerStays(s, t, c);
      }
    }
  }

  lemma CloseKeepsReleases(expected: set<string>, s: State, t: State, e: Event, mine: (string, int))
    requires Enabled(s, e) && e.ClosePeer? && t == Apply(expected, s, e) && Continues(s, t) && Serves(s, e.conn, mine)
    requires ReleasesOk(s)
    ensures ReleasesOk(t)
  {
    forall n | n in t.core.completed
      ensures t.opener[n] in t.handlers && ReleaseOk(t, n, 0) && ReleaseOk(t, n, 1)
    {
      CloseKeepsRelease(expected, s, t, e, mine, n, 0);
      CloseKeepsRelease(expected, s, t, e, mine, n, 1);
    }
  }

  lemma CloseKeepsParked(expected: set<string>, s: State, t: State, e: Event, mine: (string, int))
    requires Enabled(s, e) && e.ClosePeer? && t == Apply(expected, s, e) && Continues(s, t) && Serves(s, e.conn, mine)
    requires NamesOk(expected, s.core) && ParkedOk(s)
    ensures ParkedOk(t)
  {
    forall n, i | n in t.core.arrivals && i in t.core.arrivals[n]
      ensures ParkedAlone(t, t.core.arrivals[n][i])
    {
      assert ParkedAlone(s, s.core.arrivals[n][i]);
      ParkedIsNoPeer(expected, s, n, i, mine);
      ParkedIsNoPeer(expected, s, n, i, (mine.0, 1));
    }
  }

  lemma CloseKeepsSent(expected: set<string>, s: State, t: State, e: Event, mine: (string, int))
    requires Enabled(s, e) && e.ClosePeer? && t == Apply(expected, s, e) && Continues(s, t) && Serves(s, e.conn, mine)
    requires SentOk(s)
    ensures SentOk(t)
  {
    CloseChanges(expected, s, t, e);
  }

  lemma CloseChanges(expected: set<string>, s: State, t: State, e: Event)
    requires Enabled(s, e) && e.ClosePeer? && t == Apply(expected, s, e)
    ensures t.go == s.go && t.closed == s.closed + {Peer(s.handlers[e.conn].phase)}
    ensures t.skipped <= s.skipped + {Peer(s.handlers[e.conn].phase.(index := 1))}
    ensures t.handlers.Keys == s.handlers.Keys + {e.conn}
  {
  }

  lemma CloseStep(expected: set<string>, s: State, t: State, e: Event)
    requires Inv(expected, s) && Enabled(s, e) && e.ClosePeer? && t == Apply(expected, s, e)
    ensures Inv(expected, t)
  {
    var p := s.handlers[e.conn].phase;
    assert HandlerOk(s, e.conn);
    assert Continues(s, t);
    ContinuesKeeps(expected, s, t);
    var mine := (p.name, if p.index == 0 then 0 else 1);
    CloseKeepsHandlers(expected, s, t, e, mine);
    CloseKeepsReleases(expected, s, t, e, mine);
    CloseKeepsParked(expected, s, t, e, mine);
    CloseKeepsSent(expected, s, t, e, mine);
  }

  // --- Arriving --------------------------------------------------------------------

  /** The handler of `c` is about to enter the critical section of an arrival. */
  ghost predicate Enters(expected: set<string>, s: State, t: State, c: Conn) {
    && Enabled(s, Enter(c)) && t == Apply(expected, s, Enter(c)) && HandlerOk(s, c)
  }

  function VerdictOf(expected: set<string>, s: State, c: Conn): Verdict
    requires Enabled(s, Enter(c))
  {
    Arrive(expected, s.core, s.handlers[c].phase.name, s.handlers[c].phase.client, c).1
  }

  lemma RejectedKeepsHandlers(expected: set<string>, s: State, t: State, c: Conn)
    requires Enters(expected, s, t, c) && VerdictOf(expected, s, c).Rejected? && Continues(s, t) && HandlersOk(s)
    ensures HandlersOk(t)
  {
  }

  lemma RejectedStep(expected: set<string>, s: State, t: State, c: Conn)
    requires Inv(expected, s) && Enters(expected, s, t, c) && VerdictOf(expected, s, c).Rejected?
    ensures Inv(expected, t)
  {
    RejectedContinues(expected, s, t, c);
    ContinuesKeeps(expected, s, t);
    RejectedKeepsHandlers(expected, s, t, c);
    QuietReleases(s, t);
  }

  lemma RejectedContinues(expected: set<string>, s: State, t: State, c: Conn)
    requires Enters(expected, s, t, c) && VerdictOf(expected, s, c).Rejected? && ParkedOk(s) && SentOk(s)
    ensures Continues(s, t) && ParkedOk(t) && SentOk(t)
    ensures t.go == s.go && t.closed == s.closed && t.skipped == s.skipped
    ensures forall d :: d in s.handlers && s.handlers[d].spot.Some? ==> t.handlers[d] == s.handlers[d]
  {
  }

  lemma ArrivalNames(expected: set<string>, s: State, t: State, c: Conn)
    requires Enters(expected, s, t, c) && NamesOk(expected, s.core)
    ensures NamesOk(expected, t.core)
  {
  }

  /** The place taken by an accepted arrival was free. */
  lemma ArrivalKey(expected: set<string>, s: State, t: State, c: Conn)
    requires Enters(expected, s, t, c) && NamesOk(expected, s.core) && KeysOk(s)
    requires !VerdictOf(expected, s, c).Rejected?
    ensures (s.handlers[c].phase.name, s.handlers[c].phase.client) !in s.arrived
    ensures forall k :: k in s.arrived ==> s.arrived[k] != c
  {
  }

  lemma ArrivalHistory(expected: set<string>, s: State, t: State, c: Conn)
    requires Enters(expected, s, t, c) && NamesOk(expected, s.core) && KeysOk(s)
    requires !VerdictOf(expected, s, c).Rejected?
    ensures HistoryOk(t)
  {
  }

  lemma ArrivalParkedKnown(expected: set<string>, s: State, t: State, c: Conn)
    requires Enters(expected, s, t, c) && NamesOk(expected, s.core) && KeysOk(s)
    requires !VerdictOf(expected, s, c).Rejected?
    ensures ParkedKnown(t)
  {
    ArrivalKey(expected, s, t, c);
  }

  lemma ArrivalCompletedKnown(expected: set<string>, s: State, t: State, c: Conn)
    requires Enters(expected, s, t, c) && NamesOk(expected, s.core) && KeysOk(s)
    requires !VerdictOf(expected, s, c).Rejected?
    ensures CompletedKnown(t)
  {
  }

  lemma ArrivalKeys(expected: set<string>, s: State, t: State, c: Conn)
    requires Enters(expected, s, t, c) && NamesOk(expected, s.core) && KeysOk(s)
    requires !VerdictOf(expected, s, c).Rejected?
    ensures KeysOk(t)
  {
    ArrivalHistory(expected, s, t, c);
    ArrivalParkedKnown(expected, s, t, c);
    ArrivalCompletedKnown(expected, s, t, c);
  }

  lemma ArrivalHandlers(expected: set<string>, s: State, t: State, c: Conn)
    requires Enters(expected, s, t, c) && NamesOk(expected, s.core) && KeysOk(s) && HandlersOk(s)
    requires !VerdictOf(expected, s, c).Rejected?
    ensures HandlersOk(t)
  {
    ArrivalKey(expected, s, t, c);
    forall d | d in t.handlers
      ensures HandlerOk(t, d)
    {
      assert HandlerOk(s, d);
      if d == c {
        ArrivalSelf(expected, s, t, c);
      } else {
        ArrivalOther(expected, s, t, c, d);
      }
    }
  }

  lemma ArrivalSelf(expected: set<string>, s: State, t: State, c: Conn)
    requires Enters(expected, s, t, c) && NamesOk(expected, s.core) && KeysOk(s)
    requires !VerdictOf(expected, s, c).Rejected?
    ensures HandlerOk(t, c)
  {
  }

  lemma ArrivalOther(expected: set<string>, s: State, t: State, c: Conn, d: Conn)
    requires Enters(expected, s, t, c) && NamesOk(expected, s.core) && KeysOk(s) && d in s.handlers && HandlerOk(s, d)
    requires !VerdictOf(expected, s, c).Rejected? && d != c
    requires (s.handlers[c].phase.name, s.handlers[c].phase.client) !in s.arrived
    ensures HandlerOk(t, d)
  {
  }

  /** Whoever is parked after an arrival was parked before it, or is the arrival. */
  lemma ParkedBefore(expected: set<string>, s: State, t: State, c: Conn, n: string, i: int)
    requires Enters(expected, s, t, c) && NamesOk(expected, s.core) && !VerdictOf(expected, s, c).Rejected?
    requires n in t.core.arrivals && i in t.core.arrivals[n]
    ensures t.core.arrivals[n][i] == c
            || (n in s.core.arrivals && i in s.core.arrivals[n] && s.core.arrivals[n][i] == t.core.arrivals[n][i])
  {
  }

  lemma ArrivalParked(expected: set<string>, s: State, t: State, c: Conn)
    requires Enters(expected, s, t, c) && NamesOk(expected, s.core) && ParkedOk(s) && SentOk(s)
    requires !VerdictOf(expected, s, c).Rejected?
    ensures ParkedOk(t)
  {
    assert t.go == s.go && t.skipped == s.skipped && t.closed == s.closed && ParkedAlone(s, c);
    forall n, i | n in t.core.arrivals && i in t.core.arrivals[n]
      ensures ParkedAlone(t, t.core.arrivals[n][i])
    {
      ParkedBefore(expected, s, t, c, n, i);
      if t.core.arrivals[n][i] != c {
        assert ParkedAlone(s, s.core.arrivals[n][i]);
      }
    }
  }

  lemma ArrivalSent(expected: set<string>, s: State, t: State, c: Conn)
    requires Enters(expected, s, t, c) && SentOk(s) && !VerdictOf(expected, s, c).Rejected?
    ensures SentOk(t)
  {
  }

  /** Barriers completed before the arrival. */
  lemma ArrivalKeepsRelease(expected: set<string>, s: State, t: State, c: Conn, n: string, index: nat)
    requires Enters(expected, s, t, c) && NamesOk(expected, s.core) && KeysOk(s)
    requires !VerdictOf(expected, s, c).Rejected? && n in s.core.completed
    requires (n, index) in s.arrived && n in s.opener && s.opener[n] in s.handlers && ReleaseOk(s, n, index)
    ensures (n, index) in t.arrived && n in t.opener && t.opener[n] in t.handlers && ReleaseOk(t, n, index)
  {
  }

  /** The barrier the arrival completes. */
  lemma ArrivalOpens(expected: set<string>, s: State, t: State, c: Conn, n: string)
    requires Enters(expected, s, t, c) && NamesOk(expected, s.core) && KeysOk(s) && ParkedOk(s) && SentOk(s)
    requires VerdictOf(expected, s, c).Opens? && n == s.handlers[c].phase.name
    ensures n in t.opener && t.opener[n] in t.handlers
    ensures (n, 0) in t.arrived && ReleaseOk(t, n, 0)
    ensures (n, 1) in t.arrived && ReleaseOk(t, n, 1)
  {
    ArrivalKey(expected, s, t, c);
    ArrivalKeys(expected, s, t, c);
  }

  lemma ArrivalReleases(expected: set<string>, s: State, t: State, c: Conn)
    requires Enters(expected, s, t, c) && NamesOk(expected, s.core) && KeysOk(s) && ParkedOk(s) && SentOk(s)
    requires !VerdictOf(expected, s, c).Rejected? && ReleasesOk(s)
    ensures ReleasesOk(t)
  {
    forall n | n in t.core.completed
      ensures n in t.opener && t.opener[n] in t.handlers
      ensures (n, 0) in t.arrived && ReleaseOk(t, n, 0) && (n, 1) in t.arrived && ReleaseOk(t, n, 1)
    {
      if n in s.core.completed {
        ArrivalKeepsRelease(expected, s, t, c, n, 0);
        ArrivalKeepsRelease(expected, s, t, c, n, 1);
      } else {
        ArrivalOpens(expected, s, t, c, n);
      }
    }
  }

  lemma EnterStep(expected: set<string>, s: State, t: State, c: Conn)
    requires Inv(expected, s) && Enters(expected, s, t, c)
    ensures Inv(expected, t)
  {
    if VerdictOf(expected, s, c).Rejected? {
      RejectedStep(expected, s, t, c);
    } else {
      ArrivalNames(expected, s, t, c);
      ArrivalKeys(expected, s, t, c);
      ArrivalHandlers(expected, s, t, c);
      ArrivalParked(expected, s, t, c);
      ArrivalSent(expected, s, t, c);
      ArrivalReleases(expected, s, t, c);
    }
  }
}
