/** Progress: every schedule that keeps letting each of the three processes move ends with
    all of them done, within a number of rounds that is computed from the parameters. */
module ProbeProgress {
  import opened Schedules
  import opened ProbeModel
  import opened ProbeInvariant
  import opened ProbeSafety
  import opened ProbeTheorems

  // --- How much each process has left to do ----------------------------------------

  /** Steps left from point 16 of the server, with `k` and later phases to come. */
  function AfterMixed(cfg: Config): int {
    26 + 9 * cfg.updates
  }

  function AfterBulk(cfg: Config): int {
    AfterMixed(cfg) + 2 * (cfg.words + 4)
  }

  function AfterHandshake(cfg: Config): int {
    AfterBulk(cfg) + 4 * cfg.words + 9
  }

  /** Steps the server still has to make, waits counted once. */
  function ServerLeft(cfg: Config, sv: Server): int {
    var turn := 2 - sv.who;
    if sv.at <= 2 then AfterHandshake(cfg) + 12 * cfg.iterations + 3 - sv.at
    else if sv.at <= 8 then
      AfterHandshake(cfg) + 12 * (cfg.iterations - sv.k) + (if sv.who == 0 then 6 else 0) + 9 - sv.at
    else if sv.at == 9 then AfterBulk(cfg) + 4 * cfg.words + 7 + turn
    else if sv.at == 10 then AfterBulk(cfg) + 4 * cfg.words + 7
    else if sv.at == 11 then AfterBulk(cfg) + 4 * cfg.words + 4 + turn
    else if sv.at <= 13 then
      AfterBulk(cfg) + 4 + (if sv.at == 12 then 2 * cfg.words else 0)
      + (if sv.who == 0 then cfg.words else 0) + cfg.words - sv.word
    else if sv.at == 14 then AfterBulk(cfg) + 2 + turn
    else if sv.at == 15 then AfterBulk(cfg) + turn
    else if sv.at <= 19 then
      AfterMixed(cfg) + (if sv.k == 1 then cfg.words + 4 else 0)
      + (if sv.at == 16 then cfg.words + 4 else if sv.at == 17 then cfg.words + 1 + turn
         else if sv.at == 18 then 1 + cfg.words - sv.word else 1)
    else if sv.at == 20 then 26 + 9 * cfg.updates
    else if sv.at == 21 then 18 + 9 * cfg.updates + SNAPSHOT_WORDS - sv.word
    else if sv.at == 22 then 16 + 9 * cfg.updates + turn
    else if sv.at <= 27 then 14 + WriterLeft(cfg, sv)
    else if sv.at == 28 then 12 + turn
    else if sv.at == 29 then 12
    else if sv.at == 30 then 4 + SNAPSHOT_WORDS - sv.word
    else if sv.at == 31 then 2 + turn
    else if sv.at == 32 then turn
    else 0
  }

  /** Stores left to the seqlock writer, from starting the readers to stopping them. */
  function WriterLeft(cfg: Config, sv: Server): int {
    if sv.at == 23 then 2 + 9 * cfg.updates
    else if sv.at == 24 then 10 + 9 * (cfg.updates - sv.k)
    else if sv.at == 25 then 2 + SNAPSHOT_WORDS - sv.word + 9 * (cfg.updates - sv.k)
    else if sv.at == 26 then 2 + 9 * (cfg.updates - sv.k)
    else 1
  }

  /** Loads left in a snapshot attempt. */
  function AttemptLeft(p: Client): int {
    if p.at == 23 then 9 else if p.at == 24 then 8 - |p.vals| else 1
  }

  /** Steps from the poll of the stop word to the end: one more attempt that may fail
      before the stop word is set, then one that succeeds. */
  function ReaderLeft(stop: int): int {
    if stop == 0 then 23 else 13
  }

  /** Steps a client still has to make.  A reader that has not been told to stop is as
      far from the end as any other such reader. */
  function ClientLeft(cfg: Config, stop: int, p: Client): int {
    var afterMixed := ReaderLeft(stop) + 2;
    var afterBulk := afterMixed + 2 * (4 * cfg.words + 3) + 1;
    if p.at <= 2 then afterBulk + 2 * cfg.words + 4 + 6 * cfg.iterations + 3 - p.at
    else if p.at <= 8 then afterBulk + 2 * cfg.words + 4 + 6 * (cfg.iterations - p.k) + 9 - p.at
    else if p.at <= 10 then afterBulk + 2 * cfg.words + 13 - p.at
    else if p.at == 11 then afterBulk + 2 * cfg.words + 2 - p.word
    else if p.at <= 13 then afterBulk + cfg.words + 14 - p.at
    else if p.at == 14 then afterBulk + cfg.words - p.word
    else if p.at == 15 then afterBulk
    else if p.at <= 19 then
      afterMixed + (if p.k == 1 then 4 * cfg.words + 3 else 0)
      + (if p.at == 16 then 4 * cfg.words + 3 else if p.at == 17 then 2 + PassesLeft(cfg, p) else 20 - p.at)
    else if p.at <= 21 then afterMixed + 20 - p.at
    else if p.at <= 25 then
      if p.last && p.at > 22 then 3 + AttemptLeft(p)
      else if stop == 0 || p.at == 22 then ReaderLeft(stop)
      else ReaderLeft(stop) + AttemptLeft(p)
    else 29 - p.at
  }

  function PassesLeft(cfg: Config, p: Client): int {
    (if p.pass == 0 then 3 * cfg.words else if p.pass == 1 then 2 * cfg.words
     else if p.pass == 2 then cfg.words else 0) + cfg.words - p.word
  }

  function Left(cfg: Config, s: State): int
    requires |s.clients| == 2
  {
    ServerLeft(cfg, s.server)
    + ClientLeft(cfg, s.control.seqlockStop, s.clients[0])
    + ClientLeft(cfg, s.control.seqlockStop, s.clients[1])
  }

  // --- The server waits, or gets closer to its end ---------------------------------

  /** The server is done, or at a wait whose cell does not hold the awaited value. */
  predicate ServerWaits(sv: Server, ctl: Control, lane: Lane) {
    || (sv.at == 1 && ctl.clientsMask % 4 != 3)
    || (sv.at == 3 && lane.ready != sv.k)
    || (sv.at == 9 && lane.handshakeDone != 1)
    || (sv.at == 11 && lane.bulkDone != 1)
    || (sv.at == 15 && lane.verifyDone != 1)
    || (sv.at == 17 && lane.mixedDone != sv.k)
    || (sv.at == 22 && lane.seqReady != 1)
    || (sv.at == 28 && lane.seqDone != 1)
    || sv.at == 33
  }

  /** A step that changes nothing because the server waits, or that leaves less to do:
      one step less, unless the packet was found to be a wrong one and its checksum is not
      looked at. */
  ghost predicate Advances(cfg: Config, sv: Server, ctl: Control, lane: Lane, e: Effect) {
    && (ServerWaits(sv, ctl, lane) ==> e == Effect(sv, ctl, lane))
    && (!ServerWaits(sv, ctl, lane) ==>
          ServerLeft(cfg, e.sv) == ServerLeft(cfg, sv) - if sv.at == 5 && lane.pktSeq != sv.k then 2 else 1)
    && e.ctl.seqlockStop == (if sv.at == 27 then 1 else ctl.seqlockStop)
  }

  lemma ServerAdvances1(cfg: Config, sv: Server, ctl: Control, lane: Lane, e: Effect)
    requires cfg.Valid() && ServerPcOk(cfg, sv) && |ctl.snapWord| == SNAPSHOT_WORDS && |lane.payload| == cfg.words
    requires e == ServerStep(cfg, sv, ctl, lane) && sv.at <= 8
    ensures Advances(cfg, sv, ctl, lane, e)
  {
  }

  lemma ServerAdvances2(cfg: Config, sv: Server, ctl: Control, lane: Lane, e: Effect)
    requires cfg.Valid() && ServerPcOk(cfg, sv) && |ctl.snapWord| == SNAPSHOT_WORDS && |lane.payload| == cfg.words
    requires e == ServerStep(cfg, sv, ctl, lane) && 9 <= sv.at <= 15
    ensures Advances(cfg, sv, ctl, lane, e)
  {
  }

  lemma ServerAdvances3(cfg: Config, sv: Server, ctl: Control, lane: Lane, e: Effect)
    requires cfg.Valid() && ServerPcOk(cfg, sv) && |ctl.snapWord| == SNAPSHOT_WORDS && |lane.payload| == cfg.words
    requires e == ServerStep(cfg, sv, ctl, lane) && 16 <= sv.at <= 22
    ensures Advances(cfg, sv, ctl, lane, e)
  {
  }

  lemma ServerAdvances4(cfg: Config, sv: Server, ctl: Control, lane: Lane, e: Effect)
    requires cfg.Valid() && ServerPcOk(cfg, sv) && |ctl.snapWord| == SNAPSHOT_WORDS && |lane.payload| == cfg.words
    requires e == ServerStep(cfg, sv, ctl, lane) && 23 <= sv.at
    ensures Advances(cfg, sv, ctl, lane, e)
  {
  }

  lemma ServerAdvances(cfg: Config, sv: Server, ctl: Control, lane: Lane, e: Effect)
    requires cfg.Valid() && ServerPcOk(cfg, sv) && |ctl.snapWord| == SNAPSHOT_WORDS && |lane.payload| == cfg.words
    requires e == ServerStep(cfg, sv, ctl, lane)
    ensures Advances(cfg, sv, ctl, lane, e)
  {
    if sv.at <= 8 {
      ServerAdvances1(cfg, sv, ctl, lane, e);
    } else if sv.at <= 15 {
      ServerAdvances2(cfg, sv, ctl, lane, e);
    } else if sv.at <= 22 {
      ServerAdvances3(cfg, sv, ctl, lane, e);
    } else {
      ServerAdvances4(cfg, sv, ctl, lane, e);
    }
  }

  /** The seqlock writer never waits: each of its steps leaves exactly one store less,
      whatever the readers do. */
  lemma WriterNeverWaits(cfg: Config, sv: Server, ctl: Control, lane: Lane, e: Effect)
    requires cfg.Valid() && ServerPcOk(cfg, sv) && |ctl.snapWord| == SNAPSHOT_WORDS && |lane.payload| == cfg.words
    requires 23 <= sv.at <= 27 && e == ServerStep(cfg, sv, ctl, lane)
    ensures if sv.at == 27 then WriterLeft(cfg, sv) == 1 && e.sv.at == 28
            else 23 <= e.sv.at <= 27 && WriterLeft(cfg, e.sv) == WriterLeft(cfg, sv) - 1
  {
  }

  // --- When the server waits for a client, that client can go on -------------------

  lemma AwaitedClientMoves1(cfg: Config, c: int, sv: Server, ctl: Control, mem: Lane, p: Client, side: Side)
    requires ClientActs(cfg, c, sv, ctl, mem, p, side)
    requires ControlCells(sv, ctl) && LaneCells(cfg, c, sv, mem, p) && Causal(cfg, c, sv, p)
    requires ServerWaits(sv, ctl, mem) && sv.at == 1 && p.at <= 1
    ensures ClientLeft(cfg, ctl.seqlockStop, side.proc) < ClientLeft(cfg, ctl.seqlockStop, p)
  {
  }

  lemma AwaitedClientMoves2(cfg: Config, c: int, sv: Server, ctl: Control, mem: Lane, p: Client, side: Side)
    requires ClientActs(cfg, c, sv, ctl, mem, p, side)
    requires ControlCells(sv, ctl) && LaneCells(cfg, c, sv, mem, p) && Causal(cfg, c, sv, p)
    requires ServerWaits(sv, ctl, mem) && sv.at == 3 && sv.who == c
    ensures ClientLeft(cfg, ctl.seqlockStop, side.proc) < ClientLeft(cfg, ctl.seqlockStop, p)
  {
  }

  lemma AwaitedClientMoves3(cfg: Config, c: int, sv: Server, ctl: Control, mem: Lane, p: Client, side: Side)
    requires ClientActs(cfg, c, sv, ctl, mem, p, side)
    requires ControlCells(sv, ctl) && LaneCells(cfg, c, sv, mem, p) && Causal(cfg, c, sv, p)
    requires ServerWaits(sv, ctl, mem) && 9 <= sv.at <= 15 && sv.who == c
    ensures ClientLeft(cfg, ctl.seqlockStop, side.proc) < ClientLeft(cfg, ctl.seqlockStop, p)
  {
  }

  lemma AwaitedClientMoves4(cfg: Config, c: int, sv: Server, ctl: Control, mem: Lane, p: Client, side: Side)
    requires ClientActs(cfg, c, sv, ctl, mem, p, side)
    requires ControlCells(sv, ctl) && LaneCells(cfg, c, sv, mem, p) && Causal(cfg, c, sv, p)
    requires ServerWaits(sv, ctl, mem) && sv.at == 17 && sv.who == c
    ensures ClientLeft(cfg, ctl.seqlockStop, side.proc) < ClientLeft(cfg, ctl.seqlockStop, p)
  {
  }

  lemma AwaitedClientMoves5(cfg: Config, c: int, sv: Server, ctl: Control, mem: Lane, p: Client, side: Side)
    requires ClientActs(cfg, c, sv, ctl, mem, p, side)
    requires ControlCells(sv, ctl) && LaneCells(cfg, c, sv, mem, p) && Causal(cfg, c, sv, p)
    requires ServerWaits(sv, ctl, mem) && sv.at == 22 && sv.who == c
    ensures ClientLeft(cfg, ctl.seqlockStop, side.proc) < ClientLeft(cfg, ctl.seqlockStop, p)
  {
  }

  lemma AwaitedReaderMoves(cfg: Config, c: int, sv: Server, ctl: Control, mem: Lane, p: Client, side: Side)
    requires ClientActs(cfg, c, sv, ctl, mem, p, side)
    requires ControlCells(sv, ctl) && SnapshotCells(cfg, sv, ctl) && LaneInv(cfg, c, sv, ctl, mem, p)
    requires ServerWaits(sv, ctl, mem) && sv.at == 28 && sv.who == c
    ensures ClientLeft(cfg, ctl.seqlockStop, side.proc) < ClientLeft(cfg, ctl.seqlockStop, p)
  {
  }

  // --- From any reachable state to the end -----------------------------------------

  lemma ServerLeftIsNat(cfg: Config, sv: Server)
    requires cfg.Valid() && ServerPcOk(cfg, sv)
    ensures ServerLeft(cfg, sv) >= 0
  {
  }

  lemma ClientLeftIsNat(cfg: Config, stop: int, p: Client)
    requires cfg.Valid() && ClientPcOk(cfg, p)
    ensures ClientLeft(cfg, stop, p) >= 0
  {
  }

  lemma LeftIsNat(cfg: Config, s: State)
    requires cfg.Valid() && Wellformed(cfg, s)
    ensures Left(cfg, s) >= 0
  {
    ServerLeftIsNat(cfg, s.server);
    ClientLeftIsNat(cfg, s.control.seqlockStop, s.clients[0]);
    ClientLeftIsNat(cfg, s.control.seqlockStop, s.clients[1]);
  }

  /** Telling the readers to stop brings no reader further from its end. */
  lemma StopBringsCloser(cfg: Config, stop: int, p: Client)
    requires cfg.Valid() && ClientPcOk(cfg, p)
    ensures ClientLeft(cfg, 1, p) <= ClientLeft(cfg, stop, p)
  {
  }

  lemma ServerMoveCloser(cfg: Config, s: State)
    requires cfg.Valid() && Wellformed(cfg, s)
    requires !ServerWaits(s.server, s.control, s.lanes[Focus(s.server)])
    ensures Left(cfg, ServerMove(cfg, s)) < Left(cfg, s)
  {
    var d := Focus(s.server);
    var e := ServerStep(cfg, s.server, s.control, s.lanes[d]);
    ServerAdvances(cfg, s.server, s.control, s.lanes[d], e);
    StopBringsCloser(cfg, s.control.seqlockStop, s.clients[0]);
    StopBringsCloser(cfg, s.control.seqlockStop, s.clients[1]);
  }

  /** The client the server waits for. */
  function Awaited(s: State): int
    requires |s.clients| == 2
  {
    if s.server.at == 1 then (if s.clients[0].at <= 1 then 0 else 1) else s.server.who
  }

  lemma AwaitedMoves(cfg: Config, s: State, c: int)
    requires cfg.Valid() && Inv(cfg, s) && c == Awaited(s) && s.server.at != 33
    requires ServerWaits(s.server, s.control, s.lanes[Focus(s.server)])
    ensures 0 <= c < 2
    ensures var side := ClientStep(cfg, c, s.control, s.lanes[c], s.clients[c]);
            ClientLeft(cfg, s.control.seqlockStop, side.proc) < ClientLeft(cfg, s.control.seqlockStop, s.clients[c])
  {
    var sv, ctl, mem, p := s.server, s.control, s.lanes[c], s.clients[c];
    var side := ClientStep(cfg, c, ctl, mem, p);
    if sv.at == 1 {
      AwaitedClientMoves1(cfg, c, sv, ctl, mem, p, side);
    } else if sv.at == 3 {
      AwaitedClientMoves2(cfg, c, sv, ctl, mem, p, side);
    } else if sv.at <= 15 {
      AwaitedClientMoves3(cfg, c, sv, ctl, mem, p, side);
    } else if sv.at == 17 {
      AwaitedClientMoves4(cfg, c, sv, ctl, mem, p, side);
    } else if sv.at == 22 {
      AwaitedClientMoves5(cfg, c, sv, ctl, mem, p, side);
    } else {
      AwaitedReaderMoves(cfg, c, sv, ctl, mem, p, side);
    }
  }

  // --- No client step leaves more to do --------------------------------------------

  /** A step that leaves as much to do touches nothing shared, and its client stays where
      it is or goes around the loop of a reader that was not told to stop. */
  ghost predicate ClientSettles(cfg: Config, ctl: Control, mem: Lane, p: Client, side: Side) {
    var before, after := ClientLeft(cfg, ctl.seqlockStop, p), ClientLeft(cfg, ctl.seqlockStop, side.proc);
    && after <= before
    && (p.at < 22 || 25 < p.at ==> side.proc == p || after == before - 1)
    && (after == before ==>
          side.mem == mem && p.at != 1
          && (side.proc == p || (22 <= p.at <= 25 && 22 <= side.proc.at <= 25)))
  }

  lemma ClientSettles1(cfg: Config, c: int, sv: Server, ctl: Control, mem: Lane, p: Client, side: Side)
    requires ClientActs(cfg, c, sv, ctl, mem, p, side) && p.at <= 8
    ensures ClientSettles(cfg, ctl, mem, p, side)
  {
  }

  lemma ClientSettles2(cfg: Config, c: int, sv: Server, ctl: Control, mem: Lane, p: Client, side: Side)
    requires ClientActs(cfg, c, sv, ctl, mem, p, side) && 9 <= p.at <= 15
    ensures ClientSettles(cfg, ctl, mem, p, side)
  {
  }

  lemma ClientSettles3(cfg: Config, c: int, sv: Server, ctl: Control, mem: Lane, p: Client, side: Side)
    requires ClientActs(cfg, c, sv, ctl, mem, p, side) && 16 <= p.at <= 19 && p.at != 17
    ensures ClientSettles(cfg, ctl, mem, p, side)
  {
  }

  lemma ClientSettles4(cfg: Config, c: int, sv: Server, ctl: Control, mem: Lane, p: Client, side: Side)
    requires ClientActs(cfg, c, sv, ctl, mem, p, side) && p.at == 17
    ensures ClientSettles(cfg, ctl, mem, p, side)
  {
  }

  lemma ClientSettles5(cfg: Config, c: int, sv: Server, ctl: Control, mem: Lane, p: Client, side: Side)
    requires ClientActs(cfg, c, sv, ctl, mem, p, side) && 20 <= p.at
    requires ControlCells(sv, ctl) && SnapshotCells(cfg, sv, ctl) && Causal(cfg, c, sv, p) && ReaderOk(cfg, ctl, p)
    ensures ClientSettles(cfg, ctl, mem, p, side)
  {
  }

  lemma ClientNeverGrows(cfg: Config, s: State, c: int)
    requires cfg.Valid() && Inv(cfg, s) && 0 <= c < 2
    ensures ClientSettles(cfg, s.control, s.lanes[c], s.clients[c],
                          ClientStep(cfg, c, s.control, s.lanes[c], s.clients[c]))
  {
    var sv, ctl, mem, p := s.server, s.control, s.lanes[c], s.clients[c];
    var side := ClientStep(cfg, c, ctl, mem, p);
    if p.at <= 8 {
      ClientSettles1(cfg, c, sv, ctl, mem, p, side);
    } else if p.at <= 15 {
      ClientSettles2(cfg, c, sv, ctl, mem, p, side);
    } else if p.at == 17 {
      ClientSettles4(cfg, c, sv, ctl, mem, p, side);
    } else if p.at <= 19 {
      ClientSettles3(cfg, c, sv, ctl, mem, p, side);
    } else {
      ClientSettles5(cfg, c, sv, ctl, mem, p, side);
    }
  }

  // --- The probe as a system of processes ------------------------------------------

  /** One step of the server (0) or of a client (1 and 2). */
  ghost function Move(cfg: Config, s: State, p: nat): State {
    if !Wellformed(cfg, s) then s
    else if p == 0 then ServerMove(cfg, s)
    else if p <= 2 then ClientMove(cfg, p - 1, s)
    else s
  }

  /** The server unless it waits, else the client it waits for. */
  ghost function Helper(cfg: Config, s: State): nat {
    if !Wellformed(cfg, s) || !ServerWaits(s.server, s.control, s.lanes[Focus(s.server)]) then 0
    else 1 + Awaited(s)
  }

  ghost function LeftOf(cfg: Config, s: State): int {
    if |s.clients| == 2 then Left(cfg, s) else 0
  }

  ghost function Probe(cfg: Config): System<State>
    requires cfg.Valid()
  {
    System(3, (s, p) => Move(cfg, s, p), s => Inv(cfg, s), s => Finished(s), s => LeftOf(cfg, s), s => Helper(cfg, s))
  }

  /** A server that waits changes nothing. */
  lemma WaitingServerStays(cfg: Config, s: State)
    requires cfg.Valid() && Wellformed(cfg, s)
    requires ServerWaits(s.server, s.control, s.lanes[Focus(s.server)])
    ensures ServerMove(cfg, s) == s
  {
    var d := Focus(s.server);
    ServerAdvances(cfg, s.server, s.control, s.lanes[d], ServerStep(cfg, s.server, s.control, s.lanes[d]));
  }

  /** When the server is done, so are the clients. */
  lemma ServerEndsLast(cfg: Config, s: State)
    requires cfg.Valid() && Inv(cfg, s) && s.server.at == 33
    ensures Finished(s)
  {
    assert Causal(cfg, 0, s.server, s.clients[0]) && Causal(cfg, 1, s.server, s.clients[1]);
  }

  /** What the laws ask of one move. */
  lemma Obeys(cfg: Config, s: State, p: nat)
    requires cfg.Valid() && Inv(cfg, Move(cfg, s, p)) && LeftOf(cfg, Move(cfg, s, p)) <= LeftOf(cfg, s)
    requires Finished(s) ==> Finished(Move(cfg, s, p))
    requires !Finished(s) && p == Helper(cfg, s) ==> LeftOf(cfg, Move(cfg, s, p)) < LeftOf(cfg, s)
    requires !Finished(s) && LeftOf(cfg, Move(cfg, s, p)) == LeftOf(cfg, s) ==>
               !Finished(Move(cfg, s, p)) && Helper(cfg, Move(cfg, s, p)) == Helper(cfg, s)
    ensures Settles(Probe(cfg), s, p)
  {
  }

  lemma ServerObeys(cfg: Config, s: State)
    requires cfg.Valid() && Inv(cfg, s)
    ensures Settles(Probe(cfg), s, 0)
  {
    StepKeepsInv(cfg, s, ServerMove(cfg, s));
    if ServerWaits(s.server, s.control, s.lanes[Focus(s.server)]) {
      WaitingServerStays(cfg, s);
    } else {
      ServerMoveCloser(cfg, s);
    }
    Obeys(cfg, s, 0);
  }

  /** What a client step that leaves as much to do leaves as it is. */
  lemma IdleClientChangesNothing(cfg: Config, s: State, c: int, t: State)
    requires cfg.Valid() && Inv(cfg, s) && 0 <= c < 2 && t == ClientMove(cfg, c, s) && LeftOf(cfg, t) == LeftOf(cfg, s)
    ensures t.server == s.server && t.control == s.control && t.lanes == s.lanes
    ensures |t.clients| == 2 && t.clients[1 - c] == s.clients[1 - c]
    ensures t.clients[c] == s.clients[c] || (22 <= s.clients[c].at <= 25 && 22 <= t.clients[c].at <= 25)
  {
    ClientNeverGrows(cfg, s, c);
    ClientMoveLeaves(cfg, s, c, ClientStep(cfg, c, s.control, s.lanes[c], s.clients[c]));
  }

  lemma ClientMoveLeaves(cfg: Config, s: State, c: int, side: Side)
    requires cfg.Valid() && Wellformed(cfg, s) && 0 <= c < 2
    requires side == ClientStep(cfg, c, s.control, s.lanes[c], s.clients[c])
    ensures LeftOf(cfg, ClientMove(cfg, c, s)) - LeftOf(cfg, s)
            == ClientLeft(cfg, s.control.seqlockStop, side.proc) - ClientLeft(cfg, s.control.seqlockStop, s.clients[c])
  {
  }

  lemma HelpedClientMoves(cfg: Config, s: State, c: int)
    requires cfg.Valid() && Inv(cfg, s) && !Finished(s) && 0 <= c < 2 && Helper(cfg, s) == 1 + c
    ensures LeftOf(cfg, ClientMove(cfg, c, s)) < LeftOf(cfg, s)
  {
    if s.server.at == 33 {
      ServerEndsLast(cfg, s);
    } else {
      AwaitedMoves(cfg, s, c);
      ClientMoveLeaves(cfg, s, c, ClientStep(cfg, c, s.control, s.lanes[c], s.clients[c]));
    }
  }

  lemma ClientNeverAdds(cfg: Config, s: State, c: int)
    requires cfg.Valid() && Inv(cfg, s) && 0 <= c < 2
    ensures LeftOf(cfg, ClientMove(cfg, c, s)) <= LeftOf(cfg, s)
  {
    ClientNeverGrows(cfg, s, c);
    ClientMoveLeaves(cfg, s, c, ClientStep(cfg, c, s.control, s.lanes[c], s.clients[c]));
  }

  lemma IdleClientKeepsHelper(cfg: Config, s: State, c: int)
    requires cfg.Valid() && Inv(cfg, s) && !Finished(s) && 0 <= c < 2
    requires Wellformed(cfg, ClientMove(cfg, c, s)) && LeftOf(cfg, ClientMove(cfg, c, s)) == LeftOf(cfg, s)
    ensures !Finished(ClientMove(cfg, c, s)) && Helper(cfg, ClientMove(cfg, c, s)) == Helper(cfg, s)
  {
    IdleClientChangesNothing(cfg, s, c, ClientMove(cfg, c, s));
  }

  lemma DoneClientStays(cfg: Config, s: State, c: int)
    requires cfg.Valid() && Wellformed(cfg, s) && Finished(s) && 0 <= c < 2
    ensures Finished(ClientMove(cfg, c, s))
  {
  }

  lemma ClientObeys(cfg: Config, s: State, c: int)
    requires cfg.Valid() && Inv(cfg, s) && 0 <= c < 2
    ensures Settles(Probe(cfg), s, 1 + c)
  {
    StepKeepsInv(cfg, s, ClientMove(cfg, c, s));
    ClientNeverAdds(cfg, s, c);
    if Finished(s) {
      DoneClientStays(cfg, s, c);
    } else {
      if LeftOf(cfg, ClientMove(cfg, c, s)) == LeftOf(cfg, s) {
        IdleClientKeepsHelper(cfg, s, c);
      }
      if Helper(cfg, s) == 1 + c {
        HelpedClientMoves(cfg, s, c);
      }
    }
    Obeys(cfg, s, 1 + c);
  }

  lemma ProbeRanked(cfg: Config, s: State)
    requires cfg.Valid() && Inv(cfg, s)
    ensures Ranked(Probe(cfg), s)
  {
    LeftIsNat(cfg, s);
  }

  lemma ProbeIsLawful(cfg: Config)
    requires cfg.Valid()
    ensures Lawful(Probe(cfg))
  {
    forall s: State, p: nat | Inv(cfg, s) && p < 3
      ensures Settles(Probe(cfg), s, p)
    {
      if p == 0 {
        ServerObeys(cfg, s);
      } else {
        ClientObeys(cfg, s, p - 1);
      }
    }
    forall s: State | Inv(cfg, s)
      ensures Ranked(Probe(cfg), s)
    {
      ProbeRanked(cfg, s);
    }
  }

  /** In every reachable state that is not final some process can make a step that
      leaves less to do. */
  lemma SomeoneMoves(cfg: Config, s: State) returns (t: State)
    requires cfg.Valid() && Inv(cfg, s) && !Finished(s)
    ensures Step(cfg, s, t) && Inv(cfg, t) && Left(cfg, t) < Left(cfg, s)
  {
    ProbeIsLawful(cfg);
    var p := Helper(cfg, s);
    t := Move(cfg, s, p);
    assert Settles(Probe(cfg), s, p);
  }

  // --- Runs ------------------------------------------------------------------------

  lemma StepIsNext(cfg: Config, s: State, t: State)
    requires cfg.Valid() && Wellformed(cfg, s)
    ensures Step(cfg, s, t) <==> Next(Probe(cfg), s, t)
  {
    var y := Probe(cfg);
    assert y.move(s, 0) == ServerMove(cfg, s) && y.move(s, 1) == ClientMove(cfg, 0, s)
           && y.move(s, 2) == ClientMove(cfg, 1, s);
  }

  ghost function StepOf(cfg: Config): (State, State) -> bool {
    (s, t) => Step(cfg, s, t)
  }

  lemma PathIsChain(cfg: Config, path: seq<State>)
    ensures Path(cfg, path) <==> Chain(StepOf(cfg), path)
  {
    if |path| > 0 {
      assert forall i :: 0 <= i < |path| - 1 ==> (StepAt(cfg, path, i) <==> Linked(StepOf(cfg), path, i));
    }
  }

  /** Two paths that meet are one path. */
  lemma PathsJoin(cfg: Config, a: seq<State>, b: seq<State>)
    requires Path(cfg, a) && Path(cfg, b) && a[|a| - 1] == b[0]
    ensures Path(cfg, a + b[1..])
  {
    PathIsChain(cfg, a);
    PathIsChain(cfg, b);
    ChainsJoin(StepOf(cfg), a, b);
    PathIsChain(cfg, a + b[1..]);
  }

  lemma MovesArePath(cfg: Config, path: seq<State>)
    requires cfg.Valid() && Chain(Steps(Probe(cfg)), path) && Inv(cfg, path[0])
    ensures Path(cfg, path)
  {
    ProbeIsLawful(cfg);
    forall i | 0 <= i < |path| - 1
      ensures StepAt(cfg, path, i)
    {
      ChainKeepsInv(Probe(cfg), path, i);
      assert Linked(Steps(Probe(cfg)), path, i);
      StepIsNext(cfg, path[i], path[i + 1]);
    }
  }

  lemma ProbeCanFinish(cfg: Config, s: State) returns (path: seq<State>)
    requires cfg.Valid() && Inv(cfg, s)
    ensures Path(cfg, path) && path[0] == s && Finished(path[|path| - 1])
    ensures |path| <= Left(cfg, s) + 1
  {
    ProbeIsLawful(cfg);
    path := CanFinish(Probe(cfg), s);
    MovesArePath(cfg, path);
  }

  /** No deadlock: every run, however scheduled so far, can be continued to one in which
      all three processes are done, in at most `Left` steps. */
  lemma EveryRunCanFinish(cfg: Config, run: seq<State>) returns (whole: seq<State>)
    requires cfg.Valid() && Run(cfg, run)
    ensures Run(cfg, whole) && run <= whole && Finished(whole[|whole| - 1])
    ensures |run[|run| - 1].clients| == 2 && |whole| <= |run| + Left(cfg, run[|run| - 1])
  {
    RunInv(cfg, run, |run| - 1);
    var path := ProbeCanFinish(cfg, run[|run| - 1]);
    whole := run + path[1..];
    PathsJoin(cfg, run, path);
  }

  // --- Fair schedules --------------------------------------------------------------

  lemma {:induction false} PicksOf(cfg: Config, run: seq<State>, n: nat) returns (who: seq<nat>)
    requires cfg.Valid() && Path(cfg, run) && n < |run|
    ensures |who| == n && forall i :: 0 <= i < n ==> who[i] < 3 && run[i + 1] == Probe(cfg).move(run[i], who[i])
  {
    if n == 0 {
      who := [];
    } else {
      var init := PicksOf(cfg, run, n - 1);
      assert StepAt(cfg, run, n - 1);
      StepIsNext(cfg, run[n - 1], run[n]);
      var p: nat :| p < 3 && run[n] == Probe(cfg).move(run[n - 1], p);
      who := init + [p];
    }
  }

  lemma {:induction false} FollowsPicks(cfg: Config, run: seq<State>, picks: seq<nat>, who: Schedule, i: nat)
    requires cfg.Valid() && |run| > 0 && |picks| == |run| - 1 && i < |run|
    requires forall i :: 0 <= i < |picks| ==> run[i + 1] == Probe(cfg).move(run[i], picks[i])
    requires forall i :: 0 <= i < |picks| ==> who(i) == picks[i]
    ensures run[i] == At(Probe(cfg), run[0], who, i)
    decreases i
  {
    if i > 0 {
      FollowsPicks(cfg, run, picks, who, i - 1);
    }
  }

  /** Every path follows some schedule. */
  lemma PathIsScheduled(cfg: Config, path: seq<State>) returns (who: Schedule)
    requires cfg.Valid() && Path(cfg, path)
    ensures Names(Probe(cfg), who)
    ensures forall i :: 0 <= i < |path| ==> path[i] == At(Probe(cfg), path[0], who, i)
  {
    var picks := PicksOf(cfg, path, |path| - 1);
    who := (n: nat) => if n < |picks| then picks[n] else 0;
    forall i | 0 <= i < |path|
      ensures path[i] == At(Probe(cfg), path[0], who, i)
    {
      FollowsPicks(cfg, path, picks, who, i);
    }
  }

  /** However the rest of a run is scheduled, after `Left` rounds in each of which every
      process steps, all processes are done. */
  lemma DoneInTime(cfg: Config, run: seq<State>, who: Schedule, cut: nat -> nat)
    requires cfg.Valid() && Run(cfg, run)
    requires Names(Probe(cfg), who) && Divides(Probe(cfg), who, cut)
    ensures |run[|run| - 1].clients| == 2 && Left(cfg, run[|run| - 1]) >= 0
    ensures Finished(At(Probe(cfg), run[|run| - 1], who, cut(Left(cfg, run[|run| - 1]))))
  {
    var s := run[|run| - 1];
    RunInv(cfg, run, |run| - 1);
    LeftIsNat(cfg, s);
    ProbeIsLawful(cfg);
    DoneAfterRounds(Probe(cfg), s, who, cut, Left(cfg, s));
  }

  /** For a run from its beginning that many rounds are linear in the parameters. */
  lemma LeftAtTheStart(cfg: Config)
    requires cfg.Valid()
    ensures Left(cfg, Initial(cfg)) == 124 + 24 * cfg.iterations + 26 * cfg.words + 9 * cfg.updates
  {
  }

  /** No livelock: every continuation of a run in which each process steps again and again
      comes to the end of all three processes, and stays there. */
  lemma FairRunsFinish(cfg: Config, run: seq<State>, who: Schedule) returns (end: nat)
    requires cfg.Valid() && Run(cfg, run) && Names(Probe(cfg), who) && Fair(Probe(cfg), who)
    ensures EndsBy(Probe(cfg), run[|run| - 1], who, end)
  {
    RunInv(cfg, run, |run| - 1);
    ProbeIsLawful(cfg);
    end := FairFinishes(Probe(cfg), run[|run| - 1], who);
  }
}
