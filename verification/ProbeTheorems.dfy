/** Whole states and whole runs of the probe. */
module ProbeTheorems {
  import opened ProbeModel
  import opened ProbeInvariant
  import opened ProbeSafety

  // --- One step of the whole state -------------------------------------------------

  lemma ServerStaysShaped1(cfg: Config, sv: Server, ctl: Control, lane: Lane, e: Effect)
    requires cfg.Valid() && ServerPcOk(cfg, sv) && |ctl.snapWord| == SNAPSHOT_WORDS && |lane.payload| == cfg.words
    requires e == ServerStep(cfg, sv, ctl, lane) && sv.at <= 15
    ensures ServerPcOk(cfg, e.sv) && |e.ctl.snapWord| == SNAPSHOT_WORDS && |e.lane.payload| == cfg.words
  {
  }

  lemma ServerStaysShaped2(cfg: Config, sv: Server, ctl: Control, lane: Lane, e: Effect)
    requires cfg.Valid() && ServerPcOk(cfg, sv) && |ctl.snapWord| == SNAPSHOT_WORDS && |lane.payload| == cfg.words
    requires e == ServerStep(cfg, sv, ctl, lane) && sv.at > 15
    ensures ServerPcOk(cfg, e.sv) && |e.ctl.snapWord| == SNAPSHOT_WORDS && |e.lane.payload| == cfg.words
  {
  }

  lemma ServerStaysShaped(cfg: Config, sv: Server, ctl: Control, lane: Lane, e: Effect)
    requires cfg.Valid() && ServerPcOk(cfg, sv) && |ctl.snapWord| == SNAPSHOT_WORDS && |lane.payload| == cfg.words
    requires e == ServerStep(cfg, sv, ctl, lane)
    ensures ServerPcOk(cfg, e.sv) && |e.ctl.snapWord| == SNAPSHOT_WORDS && |e.lane.payload| == cfg.words
  {
    if sv.at <= 15 {
      ServerStaysShaped1(cfg, sv, ctl, lane, e);
    } else {
      ServerStaysShaped2(cfg, sv, ctl, lane, e);
    }
  }

  lemma ServerControl(cfg: Config, sv: Server, ctl: Control, lane: Lane, e: Effect)
    requires cfg.Valid() && ServerPcOk(cfg, sv) && |ctl.snapWord| == SNAPSHOT_WORDS && |lane.payload| == cfg.words
    requires e == ServerStep(cfg, sv, ctl, lane)
    requires ControlCells(sv, ctl)
    ensures ControlCells(e.sv, e.ctl) && e.ctl.clientsMask == ctl.clientsMask
  {
  }

  lemma ServerSnapshot(cfg: Config, sv: Server, ctl: Control, lane: Lane, e: Effect)
    requires cfg.Valid() && ServerPcOk(cfg, sv) && |ctl.snapWord| == SNAPSHOT_WORDS && |lane.payload| == cfg.words
    requires e == ServerStep(cfg, sv, ctl, lane)
    requires SnapshotCells(cfg, sv, ctl)
    ensures SnapshotCells(cfg, e.sv, e.ctl)
  {
  }

  /** The only check of the server that can fail is the one on the number of accepted
      snapshots. */
  lemma ServerFindsNoError(cfg: Config, sv: Server, ctl: Control, lane: Lane, p: Client, e: Effect)
    requires ServerActs(cfg, Focus(sv), sv, ctl, lane, p, lane, e, e.lane)
    requires SnapshotCells(cfg, sv, ctl) && LaneInv(cfg, Focus(sv), sv, ctl, lane, p)
    requires sv.clientErrors == 0
    ensures sv.at != 31 ==> e.sv.errors == sv.errors
    ensures sv.at == 31 ==> e.sv.errors == Bump(sv.errors, Wrapped(p))
    ensures e.sv.clientErrors == 0
  {
  }

  lemma ServerActsOn(cfg: Config, s: State, c: int)
    requires cfg.Valid() && 0 <= c < 2 && Wellformed(cfg, s) && MaskCell(s.control, s.clients[0], s.clients[1])
    ensures var d := Focus(s.server);
            ServerActs(cfg, c, s.server, s.control, s.lanes[d], s.clients[c], s.lanes[c],
                       ServerStep(cfg, s.server, s.control, s.lanes[d]), ServerMove(cfg, s).lanes[c])
  {
  }

  lemma ServerMoveKeepsLane(cfg: Config, s: State, c: int)
    requires cfg.Valid() && 0 <= c < 2 && Inv(cfg, s)
    ensures var t := ServerMove(cfg, s);
            LaneInv(cfg, c, t.server, t.control, t.lanes[c], t.clients[c])
  {
    var d := Focus(s.server);
    ServerActsOn(cfg, s, c);
    ServerLane(cfg, c, s.server, s.control, s.lanes[d], s.clients[c], s.lanes[c],
               ServerStep(cfg, s.server, s.control, s.lanes[d]), ServerMove(cfg, s).lanes[c]);
  }

  /** Which accepted counts the server has read so far. */
  lemma ServerReadsAccepted(cfg: Config, sv: Server, ctl: Control, lane: Lane, c: int)
    requires cfg.Valid() && 0 <= c < 2
    requires ServerPcOk(cfg, sv) && |ctl.snapWord| == SNAPSHOT_WORDS && |lane.payload| == cfg.words
    ensures Beyond(ServerStep(cfg, sv, ctl, lane).sv, 31, c) == (Beyond(sv, 31, c) || (sv.at == 31 && sv.who == c))
  {
  }

  lemma ErrorsAfter(sv: Server, sv': Server, p0: Client, p1: Client)
    requires ServerErrors(sv, p0, p1) && 0 <= sv.who <= 1 && sv'.clientErrors == 0
    requires sv'.errors == if sv.at == 31 then Bump(sv.errors, Wrapped(if sv.who == 0 then p0 else p1)) else sv.errors
    requires Beyond(sv', 31, 0) == (Beyond(sv, 31, 0) || (sv.at == 31 && sv.who == 0))
    requires Beyond(sv', 31, 1) == (Beyond(sv, 31, 1) || (sv.at == 31 && sv.who == 1))
    ensures ServerErrors(sv', p0, p1)
  {
  }

  lemma ServerMoveKeepsErrors(cfg: Config, s: State)
    requires cfg.Valid() && Inv(cfg, s)
    ensures var t := ServerMove(cfg, s);
            ServerErrors(t.server, t.clients[0], t.clients[1])
  {
    var d := Focus(s.server);
    var e := ServerStep(cfg, s.server, s.control, s.lanes[d]);
    ServerActsOn(cfg, s, d);
    ServerFindsNoError(cfg, s.server, s.control, s.lanes[d], s.clients[d], e);
    ServerReadsAccepted(cfg, s.server, s.control, s.lanes[d], 0);
    ServerReadsAccepted(cfg, s.server, s.control, s.lanes[d], 1);
    ErrorsAfter(s.server, e.sv, s.clients[0], s.clients[1]);
  }

  lemma ServerMoveKeepsInv(cfg: Config, s: State)
    requires cfg.Valid() && Inv(cfg, s)
    ensures Inv(cfg, ServerMove(cfg, s))
  {
    var d := Focus(s.server);
    var e := ServerStep(cfg, s.server, s.control, s.lanes[d]);
    ServerStaysShaped(cfg, s.server, s.control, s.lanes[d], e);
    ServerControl(cfg, s.server, s.control, s.lanes[d], e);
    ServerSnapshot(cfg, s.server, s.control, s.lanes[d], e);
    ServerMoveKeepsErrors(cfg, s);
    ServerMoveKeepsLane(cfg, s, 0);
    ServerMoveKeepsLane(cfg, s, 1);
  }

  lemma ClientStaysShaped1(cfg: Config, c: int, ctl: Control, mem: Lane, p: Client, side: Side)
    requires cfg.Valid() && ClientPcOk(cfg, p) && |ctl.snapWord| == SNAPSHOT_WORDS && |mem.payload| == cfg.words
    requires side == ClientStep(cfg, c, ctl, mem, p) && p.at <= 15
    ensures ClientPcOk(cfg, side.proc) && |side.mem.payload| == cfg.words
  {
  }

  lemma ClientStaysShaped2(cfg: Config, c: int, ctl: Control, mem: Lane, p: Client, side: Side)
    requires cfg.Valid() && ClientPcOk(cfg, p) && |ctl.snapWord| == SNAPSHOT_WORDS && |mem.payload| == cfg.words
    requires side == ClientStep(cfg, c, ctl, mem, p) && p.at > 15
    ensures ClientPcOk(cfg, side.proc) && |side.mem.payload| == cfg.words
  {
  }

  lemma ClientStaysShaped(cfg: Config, c: int, ctl: Control, mem: Lane, p: Client, side: Side)
    requires cfg.Valid() && ClientPcOk(cfg, p) && |ctl.snapWord| == SNAPSHOT_WORDS && |mem.payload| == cfg.words
    requires side == ClientStep(cfg, c, ctl, mem, p)
    ensures ClientPcOk(cfg, side.proc) && |side.mem.payload| == cfg.words
  {
    if p.at <= 15 {
      ClientStaysShaped1(cfg, c, ctl, mem, p, side);
    } else {
      ClientStaysShaped2(cfg, c, ctl, mem, p, side);
    }
  }

  lemma ClientEnds(cfg: Config, c: int, ctl: Control, mem: Lane, p: Client, side: Side)
    requires cfg.Valid() && ClientPcOk(cfg, p) && |ctl.snapWord| == SNAPSHOT_WORDS && |mem.payload| == cfg.words
    requires side == ClientStep(cfg, c, ctl, mem, p)
    ensures p.at == 29 ==> side.proc == p
    ensures (side.proc.at > 1) == (p.at >= 1)
  {
  }

  lemma ClientMoveKeepsInv(cfg: Config, c: int, s: State)
    requires cfg.Valid() && Inv(cfg, s) && 0 <= c < 2
    ensures Inv(cfg, ClientMove(cfg, c, s))
  {
    var side := ClientStep(cfg, c, s.control, s.lanes[c], s.clients[c]);
    ClientStaysShaped(cfg, c, s.control, s.lanes[c], s.clients[c], side);
    ClientEnds(cfg, c, s.control, s.lanes[c], s.clients[c], side);
    ClientLane(cfg, c, s.server, s.control, s.lanes[c], s.clients[c], side);
  }

  // --- Whole runs ------------------------------------------------------------------

  lemma StepKeepsInv(cfg: Config, s: State, s': State)
    requires cfg.Valid() && Inv(cfg, s) && Step(cfg, s, s')
    ensures Inv(cfg, s')
  {
    if s' == ServerMove(cfg, s) {
      ServerMoveKeepsInv(cfg, s);
    } else if s' == ClientMove(cfg, 0, s) {
      ClientMoveKeepsInv(cfg, 0, s);
    } else {
      ClientMoveKeepsInv(cfg, 1, s);
    }
  }

  /** Every state of every run satisfies the invariant. */
  lemma {:induction false} RunInv(cfg: Config, run: seq<State>, i: nat)
    requires cfg.Valid() && Run(cfg, run) && i < |run|
    ensures Inv(cfg, run[i])
    decreases i
  {
    if i == 0 {
      InitialInv(cfg);
    } else {
      RunInv(cfg, run, i - 1);
      assert StepAt(cfg, run, i - 1);
      StepKeepsInv(cfg, run[i - 1], run[i]);
    }
  }

  /** Whole-run correctness.  In every run the clients count no error.  When the server
      is done its own error counter is the number of clients whose count of accepted
      snapshots is a multiple of 2^64 - each accepted at least one, so the 64-bit
      counter wrapped - and the last snapshot each accepted was the last version. */
  lemma CompleteRun(cfg: Config, run: seq<State>)
    requires cfg.Valid() && Run(cfg, run)
    ensures var s := run[|run| - 1];
            && |s.clients| == 2
            && s.clients[0].errors == s.clients[1].errors == 0
            && (s.server.at == 33 ==>
                  && s.server.clientErrors == 0
                  && s.server.errors == Flag(Wrapped(s.clients[0])) + Flag(Wrapped(s.clients[1]))
                  && forall c :: 0 <= c < 2 ==> Finish(cfg, s.clients[c]))
  {
    RunInv(cfg, run, |run| - 1);
  }

  /** Sorted versions, ending in the last one. */
  ghost predicate Finish(cfg: Config, p: Client) {
    p.at == 29 && |p.log| > 0 && Sorted(p.log) && p.log[|p.log| - 1] == cfg.updates
  }

  lemma LogGrowsSlowly(cfg: Config, c: int, ctl: Control, mem: Lane, p: Client)
    requires ClientPcOk(cfg, p) && |ctl.snapWord| == SNAPSHOT_WORDS && |mem.payload| == cfg.words
    ensures var q := ClientStep(cfg, c, ctl, mem, p).proc;
            p.log <= q.log && |q.log| <= |p.log| + 1 && (p.at > 25 ==> q.log == p.log)
  {
  }

  lemma {:induction false} LogIsShort(cfg: Config, run: seq<State>, i: nat)
    requires cfg.Valid() && Run(cfg, run) && i < |run|
    ensures |run[i].clients| == 2 && |run[i].clients[0].log| <= i && |run[i].clients[1].log| <= i
    decreases i
  {
    if i > 0 {
      LogIsShort(cfg, run, i - 1);
      var s := run[i - 1];
      assert StepAt(cfg, run, i - 1);
      LogGrowsSlowly(cfg, 0, s.control, s.lanes[0], s.clients[0]);
      LogGrowsSlowly(cfg, 1, s.control, s.lanes[1], s.clients[1]);
    }
  }

  /** Every complete run of at most 2^64 steps passes: no process counts any error. */
  lemma ShortRunPasses(cfg: Config, run: seq<State>)
    requires cfg.Valid() && Run(cfg, run) && |run| <= TWO64
    requires run[|run| - 1].server.at == 33
    ensures run[|run| - 1].server.errors == 0 && run[|run| - 1].server.clientErrors == 0
  {
    CompleteRun(cfg, run);
    LogIsShort(cfg, run, |run| - 1);
    var s := run[|run| - 1];
    assert forall c :: 0 <= c < 2 ==> Finish(cfg, s.clients[c]);
    assert Finish(cfg, s.clients[0]) && Finish(cfg, s.clients[1]);
  }

  /** Seqlock consistency: at the end of a snapshot attempt in which the sequence word
      did not change and is even, all seven loaded words belong to that version. */
  lemma SnapshotsAreConsistent(cfg: Config, run: seq<State>, i: nat, c: int)
    requires cfg.Valid() && Run(cfg, run) && i < |run| && 0 <= c < 2
    ensures |run[i].clients| == 2
    ensures var p, second := run[i].clients[c], run[i].control.snapSeq;
            p.at == 25 && p.first == second && second % 2 == 0 ==>
              |p.vals| == 7 && forall w :: 0 <= w < 7 ==> p.vals[w] == cfg.mix.snapshotValue(second / 2, w)
  {
    RunInv(cfg, run, i);
  }

  /** The versions a reader accepts never decrease, and none is newer than the snapshot. */
  lemma VersionsNeverDecrease(cfg: Config, run: seq<State>, i: nat, c: int)
    requires cfg.Valid() && Run(cfg, run) && i < |run| && 0 <= c < 2
    ensures |run[i].clients| == 2
    ensures Sorted(run[i].clients[c].log)
    ensures run[i].clients[c].at > 21 ==> AtMost(run[i].clients[c].log, run[i].control.snapSeq / 2)
  {
    RunInv(cfg, run, i);
  }

  /** Once a reader has seen the stop word, its next attempt succeeds with the last
      version: the first load is even and the second load accepts. */
  lemma LastAttemptSucceeds(cfg: Config, run: seq<State>, i: nat, c: int)
    requires cfg.Valid() && Run(cfg, run) && i < |run| && 0 <= c < 2
    ensures |run[i].clients| == 2
    ensures var p, second := run[i].clients[c], run[i].control.snapSeq;
            && (p.last && p.at == 23 ==> second == 2 * cfg.updates)
            && (p.last && p.at == 25 ==>
                  var q := FinishTry(cfg, p, second);
                  q.at == 26 && q.log == p.log + [cfg.updates] && q.snapErrors == 0)
  {
    RunInv(cfg, run, i);
    var p := run[i].clients[c];
    if p.last && p.at == 25 {
      NoMismatch(cfg, p.first / 2, p.vals, 0);
    }
  }

  /** The cell that a client polls, and the value it waits for. */
  function ClientPolls(ctl: Control, mem: Lane, p: Client): (int, int) {
    if p.at == 0 then (ctl.initialized, 1)
    else if p.at == 2 then (ctl.start, 1)
    else if p.at == 7 then (mem.ack, p.k)
    else if p.at == 10 then (ctl.bulkStart, 1)
    else if p.at == 13 then (mem.bulkAck, 1)
    else if p.at == 16 then (ctl.mixedPhase, p.k)
    else if p.at == 21 then (ctl.seqlockStart, 1)
    else (0, 0)
  }

  /** The cell of a lane, or the registration word, that the server polls. */
  function ServerPolls(sv: Server, ctl: Control, mem: Lane): (int, int) {
    if sv.at == 1 then (ctl.clientsMask, 3)
    else if sv.at == 3 then (mem.ready, sv.k)
    else if sv.at == 9 then (mem.handshakeDone, 1)
    else if sv.at == 11 then (mem.bulkDone, 1)
    else if sv.at == 15 then (mem.verifyDone, 1)
    else if sv.at == 17 then (mem.mixedDone, sv.k)
    else if sv.at == 22 then (mem.seqReady, 1)
    else if sv.at == 28 then (mem.seqDone, 1)
    else (0, 0)
  }

  /** No missed rendezvous: whatever cell a process polls has not run past the value it is
      polled for, and in the handshake each lane is at most one publication ahead. */
  lemma NoMissedRendezvous(cfg: Config, run: seq<State>, i: nat, c: int)
    requires cfg.Valid() && Run(cfg, run) && i < |run| && 0 <= c < 2
    ensures |run[i].clients| == 2 && |run[i].lanes| == 2
    ensures run[i].lanes[c].ack <= run[i].lanes[c].ready <= run[i].lanes[c].ack + 1
    ensures var polled := ClientPolls(run[i].control, run[i].lanes[c], run[i].clients[c]); polled.0 <= polled.1
    ensures run[i].server.who == c ==>
              var polled := ServerPolls(run[i].server, run[i].control, run[i].lanes[c]); polled.0 <= polled.1
  {
    RunInv(cfg, run, i);
  }
}
