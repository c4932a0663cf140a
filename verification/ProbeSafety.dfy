/** Every step keeps the invariant, one process and one part of the invariant at a time. */
module ProbeSafety {
  import opened ProbeModel
  import opened ProbeInvariant

  // --- The server ------------------------------------------------------------------

  /** The server makes one step that turns lane `c` from `mem` into `mem'`. */
  ghost predicate ServerActs(cfg: Config, c: int, sv: Server, ctl: Control, lane: Lane, p: Client, mem: Lane,
                             e: Effect, mem': Lane) {
    && cfg.Valid() && 0 <= c < 2
    && ServerPcOk(cfg, sv) && ClientPcOk(cfg, p)
    && |ctl.snapWord| == SNAPSHOT_WORDS && |lane.payload| == cfg.words && |mem.payload| == cfg.words
    && e == ServerStep(cfg, sv, ctl, lane)
    && (c == Focus(sv) ==> lane == mem)
    && mem' == (if c == Focus(sv) then e.lane else mem)
    && (sv.at == 1 && ctl.clientsMask % 4 == 3 ==> p.at > 1)
  }

  lemma ServerCells1(cfg: Config, c: int, sv: Server, ctl: Control, lane: Lane, p: Client, mem: Lane, e: Effect, mem': Lane)
    requires ServerActs(cfg, c, sv, ctl, lane, p, mem, e, mem') && sv.at <= 8
    requires LaneCells(cfg, c, sv, mem, p) && Causal(cfg, c, sv, p)
    ensures LaneCells(cfg, c, e.sv, mem', p) && Causal(cfg, c, e.sv, p)
  {
  }

  lemma ServerCells2(cfg: Config, c: int, sv: Server, ctl: Control, lane: Lane, p: Client, mem: Lane, e: Effect, mem': Lane)
    requires ServerActs(cfg, c, sv, ctl, lane, p, mem, e, mem') && 9 <= sv.at <= 15
    requires LaneCells(cfg, c, sv, mem, p) && Causal(cfg, c, sv, p)
    ensures LaneCells(cfg, c, e.sv, mem', p) && Causal(cfg, c, e.sv, p)
  {
  }

  lemma ServerCells3(cfg: Config, c: int, sv: Server, ctl: Control, lane: Lane, p: Client, mem: Lane, e: Effect, mem': Lane)
    requires ServerActs(cfg, c, sv, ctl, lane, p, mem, e, mem') && 16 <= sv.at
    requires LaneCells(cfg, c, sv, mem, p) && Causal(cfg, c, sv, p)
    ensures LaneCells(cfg, c, e.sv, mem', p) && Causal(cfg, c, e.sv, p)
  {
  }

  lemma ServerPackets(cfg: Config, c: int, sv: Server, ctl: Control, lane: Lane, p: Client, mem: Lane, e: Effect, mem': Lane)
    requires ServerActs(cfg, c, sv, ctl, lane, p, mem, e, mem')
    requires LaneCells(cfg, c, sv, mem, p) && Causal(cfg, c, sv, p)
    requires Packets(cfg, c, sv, mem, p)
    ensures Packets(cfg, c, e.sv, mem', p)
  {
  }

  lemma ServerPayload(cfg: Config, c: int, sv: Server, ctl: Control, lane: Lane, p: Client, mem: Lane, e: Effect, mem': Lane)
    requires ServerActs(cfg, c, sv, ctl, lane, p, mem, e, mem') && sv.at <= 15
    requires Causal(cfg, c, sv, p)
    requires PayloadOk(cfg, c, sv, mem, p)
    ensures PayloadOk(cfg, c, e.sv, mem', p)
  {
  }

  lemma ServerLeavesPayload(cfg: Config, c: int, sv: Server, ctl: Control, lane: Lane, p: Client, mem: Lane, e: Effect, mem': Lane)
    requires ServerActs(cfg, c, sv, ctl, lane, p, mem, e, mem') && sv.at > 15
    requires PayloadOk(cfg, c, sv, mem, p)
    ensures PayloadOk(cfg, c, e.sv, mem', p)
  {
  }

  lemma ServerLeavesCounters(cfg: Config, c: int, sv: Server, ctl: Control, lane: Lane, p: Client, mem: Lane, e: Effect, mem': Lane)
    requires ServerActs(cfg, c, sv, ctl, lane, p, mem, e, mem')
    requires ChecksumOk(cfg, c, mem, p) && ClientClean(mem, p)
    ensures ChecksumOk(cfg, c, mem', p) && ClientClean(mem', p)
  {
  }

  lemma ServerReader(cfg: Config, c: int, sv: Server, ctl: Control, lane: Lane, p: Client, mem: Lane, e: Effect, mem': Lane)
    requires ServerActs(cfg, c, sv, ctl, lane, p, mem, e, mem')
    requires Causal(cfg, c, sv, p) && SnapshotCells(cfg, sv, ctl)
    requires ReaderOk(cfg, ctl, p)
    ensures ReaderOk(cfg, e.ctl, p)
  {
  }

  /** A server step keeps the whole invariant of either lane. */
  lemma ServerLane(cfg: Config, c: int, sv: Server, ctl: Control, lane: Lane, p: Client, mem: Lane, e: Effect, mem': Lane)
    requires ServerActs(cfg, c, sv, ctl, lane, p, mem, e, mem')
    requires SnapshotCells(cfg, sv, ctl) && LaneInv(cfg, c, sv, ctl, mem, p)
    ensures LaneInv(cfg, c, e.sv, e.ctl, mem', p)
  {
    if sv.at <= 8 {
      ServerCells1(cfg, c, sv, ctl, lane, p, mem, e, mem');
    } else if sv.at <= 15 {
      ServerCells2(cfg, c, sv, ctl, lane, p, mem, e, mem');
    } else {
      ServerCells3(cfg, c, sv, ctl, lane, p, mem, e, mem');
    }
    ServerPackets(cfg, c, sv, ctl, lane, p, mem, e, mem');
    if sv.at <= 15 {
      ServerPayload(cfg, c, sv, ctl, lane, p, mem, e, mem');
    } else {
      ServerLeavesPayload(cfg, c, sv, ctl, lane, p, mem, e, mem');
    }
    ServerLeavesCounters(cfg, c, sv, ctl, lane, p, mem, e, mem');
    ServerReader(cfg, c, sv, ctl, lane, p, mem, e, mem');
  }

  // --- A client --------------------------------------------------------------------

  ghost predicate ClientActs(cfg: Config, c: int, sv: Server, ctl: Control, mem: Lane, p: Client, side: Side) {
    && cfg.Valid() && 0 <= c < 2
    && ServerPcOk(cfg, sv) && ClientPcOk(cfg, p)
    && |ctl.snapWord| == SNAPSHOT_WORDS && |mem.payload| == cfg.words
    && side == ClientStep(cfg, c, ctl, mem, p)
  }

  lemma ClientCells1(cfg: Config, c: int, sv: Server, ctl: Control, mem: Lane, p: Client, side: Side)
    requires ClientActs(cfg, c, sv, ctl, mem, p, side) && p.at <= 8
    requires ControlCells(sv, ctl)
    requires LaneCells(cfg, c, sv, mem, p) && Causal(cfg, c, sv, p)
    ensures LaneCells(cfg, c, sv, side.mem, side.proc) && Causal(cfg, c, sv, side.proc)
  {
  }

  lemma ClientCells2(cfg: Config, c: int, sv: Server, ctl: Control, mem: Lane, p: Client, side: Side)
    requires ClientActs(cfg, c, sv, ctl, mem, p, side) && 9 <= p.at <= 15
    requires ControlCells(sv, ctl)
    requires LaneCells(cfg, c, sv, mem, p) && Causal(cfg, c, sv, p)
    ensures LaneCells(cfg, c, sv, side.mem, side.proc) && Causal(cfg, c, sv, side.proc)
  {
  }

  lemma ClientCells3(cfg: Config, c: int, sv: Server, ctl: Control, mem: Lane, p: Client, side: Side)
    requires ClientActs(cfg, c, sv, ctl, mem, p, side) && 16 <= p.at
    requires ControlCells(sv, ctl)
    requires LaneCells(cfg, c, sv, mem, p) && Causal(cfg, c, sv, p)
    ensures LaneCells(cfg, c, sv, side.mem, side.proc) && Causal(cfg, c, sv, side.proc)
  {
  }

  lemma ClientPackets(cfg: Config, c: int, sv: Server, ctl: Control, mem: Lane, p: Client, side: Side)
    requires ClientActs(cfg, c, sv, ctl, mem, p, side)
    requires LaneCells(cfg, c, sv, mem, p) && Causal(cfg, c, sv, p)
    requires Packets(cfg, c, sv, mem, p)
    ensures Packets(cfg, c, sv, side.mem, side.proc)
  {
  }

  lemma ClientPayload1(cfg: Config, c: int, sv: Server, ctl: Control, mem: Lane, p: Client, side: Side)
    requires ClientActs(cfg, c, sv, ctl, mem, p, side) && p.at <= 15
    requires Causal(cfg, c, sv, p)
    requires PayloadOk(cfg, c, sv, mem, p)
    ensures PayloadOk(cfg, c, sv, side.mem, side.proc)
  {
  }

  lemma ClientPayload2(cfg: Config, c: int, sv: Server, ctl: Control, mem: Lane, p: Client, side: Side)
    requires ClientActs(cfg, c, sv, ctl, mem, p, side) && 16 <= p.at <= 19
    requires Causal(cfg, c, sv, p)
    requires PayloadOk(cfg, c, sv, mem, p)
    ensures PayloadOk(cfg, c, sv, side.mem, side.proc)
  {
  }

  lemma ClientLeavesPayload(cfg: Config, c: int, sv: Server, ctl: Control, mem: Lane, p: Client, side: Side)
    requires ClientActs(cfg, c, sv, ctl, mem, p, side) && 20 <= p.at
    requires PayloadOk(cfg, c, sv, mem, p)
    ensures PayloadOk(cfg, c, sv, side.mem, side.proc)
  {
  }

  lemma ClientChecksum(cfg: Config, c: int, sv: Server, ctl: Control, mem: Lane, p: Client, side: Side)
    requires ClientActs(cfg, c, sv, ctl, mem, p, side) && 16 <= p.at <= 19
    requires Causal(cfg, c, sv, p) && PayloadOk(cfg, c, sv, mem, p)
    requires ChecksumOk(cfg, c, mem, p)
    ensures ChecksumOk(cfg, c, side.mem, side.proc)
  {
  }

  lemma ClientLeavesChecksum(cfg: Config, c: int, sv: Server, ctl: Control, mem: Lane, p: Client, side: Side)
    requires ClientActs(cfg, c, sv, ctl, mem, p, side) && !(16 <= p.at <= 19)
    requires ChecksumOk(cfg, c, mem, p)
    ensures ChecksumOk(cfg, c, side.mem, side.proc)
  {
  }

  lemma ClientAccepts(cfg: Config, ctl: Control, p: Client)
    requires cfg.Valid() && p.at == 25 && ReaderOk(cfg, ctl, p)
    requires p.last ==> ctl.snapSeq == 2 * cfg.updates
    ensures ReaderOk(cfg, ctl, FinishTry(cfg, p, ctl.snapSeq))
  {
  }

  lemma ClientAttempts(cfg: Config, c: int, sv: Server, ctl: Control, mem: Lane, p: Client, side: Side)
    requires ClientActs(cfg, c, sv, ctl, mem, p, side) && 22 <= p.at <= 24
    requires ControlCells(sv, ctl) && SnapshotCells(cfg, sv, ctl) && Causal(cfg, c, sv, p)
    requires ReaderOk(cfg, ctl, p)
    ensures ReaderOk(cfg, ctl, side.proc)
  {
  }

  lemma ClientOutsideReader(cfg: Config, c: int, sv: Server, ctl: Control, mem: Lane, p: Client, side: Side)
    requires ClientActs(cfg, c, sv, ctl, mem, p, side) && !(22 <= p.at <= 25)
    requires ReaderOk(cfg, ctl, p)
    ensures ReaderOk(cfg, ctl, side.proc)
  {
  }

  lemma NoMismatch(cfg: Config, version: int, vals: seq<int>, word: nat)
    requires word <= |vals| && Words(cfg, version, vals, |vals|)
    ensures Mismatches(cfg, version, vals, word) == 0
    decreases |vals| - word
  {
  }

  lemma ClientStaysClean(cfg: Config, c: int, sv: Server, ctl: Control, mem: Lane, p: Client, side: Side)
    requires ClientActs(cfg, c, sv, ctl, mem, p, side)
    requires Causal(cfg, c, sv, p) && Packets(cfg, c, sv, mem, p) && PayloadOk(cfg, c, sv, mem, p) && ReaderOk(cfg, ctl, p)
    requires ClientClean(mem, p)
    ensures ClientClean(side.mem, side.proc)
  {
    if p.at == 25 && p.first == ctl.snapSeq {
      NoMismatch(cfg, p.first / 2, p.vals, 0);
    }
  }

  /** A client step keeps the whole invariant of its own lane. */
  lemma ClientLane(cfg: Config, c: int, sv: Server, ctl: Control, mem: Lane, p: Client, side: Side)
    requires ClientActs(cfg, c, sv, ctl, mem, p, side)
    requires ControlCells(sv, ctl) && SnapshotCells(cfg, sv, ctl) && LaneInv(cfg, c, sv, ctl, mem, p)
    ensures LaneInv(cfg, c, sv, ctl, side.mem, side.proc)
  {
    if p.at <= 8 {
      ClientCells1(cfg, c, sv, ctl, mem, p, side);
    } else if p.at <= 15 {
      ClientCells2(cfg, c, sv, ctl, mem, p, side);
    } else {
      ClientCells3(cfg, c, sv, ctl, mem, p, side);
    }
    ClientPackets(cfg, c, sv, ctl, mem, p, side);
    if p.at <= 15 {
      ClientPayload1(cfg, c, sv, ctl, mem, p, side);
    } else if p.at <= 19 {
      ClientPayload2(cfg, c, sv, ctl, mem, p, side);
    } else {
      ClientLeavesPayload(cfg, c, sv, ctl, mem, p, side);
    }
    if 16 <= p.at <= 19 {
      ClientChecksum(cfg, c, sv, ctl, mem, p, side);
    } else {
      ClientLeavesChecksum(cfg, c, sv, ctl, mem, p, side);
    }
    if p.at == 25 {
      ClientAccepts(cfg, ctl, p);
    } else if 22 <= p.at {
      if p.at <= 24 {
        ClientAttempts(cfg, c, sv, ctl, mem, p, side);
      } else {
        ClientOutsideReader(cfg, c, sv, ctl, mem, p, side);
      }
    } else {
      ClientOutsideReader(cfg, c, sv, ctl, mem, p, side);
    }
    ClientStaysClean(cfg, c, sv, ctl, mem, p, side);
  }
}
