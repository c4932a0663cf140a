/** The inductive invariant of the probe.  Each shared cell has one writer, so its
    content is a function of where that writer is; and a process that passed a wait
    saw the awaited value, which puts the writer beyond the matching store.  Both facts
    are stated one lane at a time, because the two lanes interact only through the
    server. */
module ProbeInvariant {
  import opened ProbeModel

  function Flag(b: bool): int {
    if b then 1 else 0
  }

  /** The server is past point `at` for client `c`, where `at` is visited once for each
      client. */
  predicate Beyond(sv: Server, at: int, c: int) {
    sv.at > at || (sv.at == at && sv.who > c)
  }

  // --- The handshake counters ------------------------------------------------------

  /** Publications of client `c` that the server has observed. */
  function ReadySeen(cfg: Config, sv: Server, c: int): int {
    if sv.at < 3 then 0 else if sv.at > 8 then cfg.iterations
    else if c < sv.who || (c == sv.who && sv.at > 3) then sv.k else sv.k - 1
  }

  /** Acknowledgements the server has stored for client `c`. */
  function Acked(cfg: Config, sv: Server, c: int): int {
    if sv.at < 3 then 0 else if sv.at > 8 then cfg.iterations
    else if c < sv.who then sv.k else sv.k - 1
  }

  /** Publications the client has stored. */
  function Published(cfg: Config, p: Client): int {
    if p.at < 3 then 0 else if p.at > 8 then cfg.iterations
    else if p.at >= 7 then p.k else p.k - 1
  }

  /** Acknowledgements the client has observed. */
  function AckSeen(cfg: Config, p: Client): int {
    if p.at < 3 then 0 else if p.at > 8 then cfg.iterations
    else if p.at == 8 then p.k else p.k - 1
  }

  /** Mixed phases started by the server, observed complete by the server for client
      `c`, observed started by the client, and completed by the client. */
  function PhaseStarted(sv: Server): int {
    if sv.at < 16 then 0 else if sv.at > 19 then 2 else if sv.at == 16 then sv.k - 1 else sv.k
  }

  function PhaseSeenDone(sv: Server, c: int): int {
    if sv.at < 16 then 0 else if sv.at > 19 then 2 else if Beyond(sv, 17, c) then sv.k else sv.k - 1
  }

  function PhaseEntered(p: Client): int {
    if p.at < 16 then 0 else if p.at > 19 then 2 else if p.at == 16 then p.k - 1 else p.k
  }

  function PhaseDone(p: Client): int {
    if p.at < 16 then 0 else if p.at > 19 then 2 else p.k - 1
  }

  // --- What each cell holds --------------------------------------------------------

  ghost predicate ControlCells(sv: Server, ctl: Control) {
    && ctl.initialized == Flag(sv.at > 0)
    && ctl.start == Flag(sv.at > 2)
    && ctl.bulkStart == Flag(sv.at > 10)
    && ctl.mixedPhase == PhaseStarted(sv)
    && ctl.seqlockStart == Flag(sv.at > 23)
    && ctl.seqlockStop == Flag(sv.at > 27)
  }

  ghost predicate MaskCell(ctl: Control, p0: Client, p1: Client) {
    ctl.clientsMask == Flag(p0.at > 1) + 2 * Flag(p1.at > 1)
  }

  ghost predicate LaneCells(cfg: Config, c: int, sv: Server, mem: Lane, p: Client) {
    && mem.ready == Published(cfg, p)
    && mem.ack == Acked(cfg, sv, c)
    && mem.handshakeDone == Flag(p.at > 9)
    && mem.bulkDone == Flag(p.at > 12)
    && mem.bulkAck == Flag(Beyond(sv, 14, c))
    && mem.verifyDone == Flag(p.at > 15)
    && mem.mixedDone == PhaseDone(p)
    && mem.seqReady == Flag(p.at > 20)
    && mem.seqDone == Flag(p.at > 28)
  }

  /** Every wait that was passed had its store before it. */
  ghost predicate Causal(cfg: Config, c: int, sv: Server, p: Client) {
    && (p.at > 0 ==> sv.at > 0)
    && (sv.at > 1 ==> p.at > 1)
    && (p.at > 2 ==> sv.at > 2)
    && AckSeen(cfg, p) <= Acked(cfg, sv, c)
    && ReadySeen(cfg, sv, c) <= Published(cfg, p)
    && (Beyond(sv, 9, c) ==> p.at > 9)
    && (p.at > 10 ==> sv.at > 10)
    && (Beyond(sv, 11, c) ==> p.at > 12)
    && (p.at > 13 ==> Beyond(sv, 14, c))
    && (Beyond(sv, 15, c) ==> p.at > 15)
    && PhaseEntered(p) <= PhaseStarted(sv)
    && PhaseSeenDone(sv, c) <= PhaseDone(p)
    && (Beyond(sv, 22, c) ==> p.at > 20)
    && (p.at > 21 ==> sv.at > 23)
    && (p.at > 25 || (p.at > 22 && p.last) ==> sv.at > 27)
    && (Beyond(sv, 28, c) ==> p.at > 28)
  }

  ghost predicate Packet(cfg: Config, c: int, mem: Lane, k: int, parts: int) {
    && (parts > 0 ==> mem.pktSeq == k)
    && (parts > 1 ==> mem.pktValue == cfg.mix.packetValue(c, k))
    && (parts > 2 ==> mem.pktChecksum == cfg.mix.packetChecksum(c, k, cfg.mix.packetValue(c, k)))
  }

  ghost predicate Replied(cfg: Config, c: int, mem: Lane, k: int) {
    mem.pktReply == cfg.mix.packetReply(c, k, cfg.mix.packetValue(c, k))
  }

  /** Packet fields, and the values in transit. */
  ghost predicate Packets(cfg: Config, c: int, sv: Server, mem: Lane, p: Client) {
    && (3 <= p.at <= 7 ==> Packet(cfg, c, mem, p.k, p.at - 3))
    && (p.at == 7 && Acked(cfg, sv, c) == p.k ==> Replied(cfg, c, mem, p.k))
    && (p.at == 8 ==> Replied(cfg, c, mem, p.k))
    && (5 <= sv.at <= 7 && sv.who == c ==> sv.value == cfg.mix.packetValue(c, sv.k))
    && (sv.at == 8 && sv.who == c ==> Replied(cfg, c, mem, sv.k))
  }

  // --- Payload ---------------------------------------------------------------------

  ghost predicate HoldsBulk(cfg: Config, c: int, payload: seq<int>, upTo: int) {
    forall i :: 0 <= i < upTo && i < |payload| ==> payload[i] == cfg.mix.payloadValue(c, i)
  }

  ghost predicate HoldsWriteback(cfg: Config, c: int, payload: seq<int>, upTo: int) {
    forall i :: 0 <= i < upTo && i < |payload| ==> payload[i] == cfg.Writeback(c, i)
  }

  ghost predicate HoldsMixed(cfg: Config, c: int, pass: int, payload: seq<int>, upTo: int) {
    forall i :: 0 <= i < upTo && i < |payload| ==> payload[i] == cfg.mix.mixedWrite(c + 1, c, pass, i)
  }

  /** Client `c` has started, respectively finished, storing in its mixed phase `c + 1`. */
  predicate MixedBegun(c: int, p: Client) {
    p.at > 19 || (16 <= p.at <= 19 && (p.k > c + 1 || (p.k == c + 1 && p.at > 16)))
  }

  predicate MixedStored(c: int, p: Client) {
    p.at > 19 || (16 <= p.at <= 19 && (p.k > c + 1 || (p.k == c + 1 && p.at > 17)))
  }

  ghost predicate PayloadOk(cfg: Config, c: int, sv: Server, mem: Lane, p: Client) {
    && (p.at == 11 ==> HoldsBulk(cfg, c, mem.payload, p.word))
    && (p.at > 11 && sv.at <= 12 ==> HoldsBulk(cfg, c, mem.payload, cfg.words))
    && (sv.at == 13 && sv.who == c ==> HoldsWriteback(cfg, c, mem.payload, sv.word))
    && (Beyond(sv, 13, c) && !MixedBegun(c, p) ==> HoldsWriteback(cfg, c, mem.payload, cfg.words))
    && (p.at == 17 && p.k == c + 1 ==> HoldsMixed(cfg, c, p.pass, mem.payload, p.word))
    && (MixedStored(c, p) ==> HoldsMixed(cfg, c, MIXED_PASSES - 1, mem.payload, cfg.words))
  }

  /** The running checksum of the client that reads in phase `2 - c`, and the cell that
      publishes it. */
  ghost predicate ChecksumOk(cfg: Config, c: int, mem: Lane, p: Client) {
    && (p.at == 17 && p.k == 2 - c ==> p.sum == cfg.PartialChecksum(2 - c, c, p.pass, p.word))
    && (p.at == 18 && p.k == 2 - c ==> p.sum == cfg.ExpectedChecksum(2 - c, c))
    && (p.at == 19 && p.k == 2 - c ==> mem.mixedChecksum == cfg.ExpectedChecksum(2 - c, c))
    && (c == 1 && 16 <= p.at <= 18 && p.k == 2 ==> mem.mixedChecksum == cfg.ExpectedChecksum(1, 1))
    && (c == 0 && p.at > 19 ==> mem.mixedChecksum == cfg.ExpectedChecksum(2, 0))
  }

  // --- Seqlock ---------------------------------------------------------------------

  ghost predicate Words(cfg: Config, version: int, words: seq<int>, upTo: int) {
    forall i :: 0 <= i < upTo && i < |words| ==> words[i] == cfg.mix.snapshotValue(version, i)
  }

  /** The shared snapshot, as a function of where its only writer is. */
  ghost predicate SnapshotCells(cfg: Config, sv: Server, ctl: Control) {
    && (sv.at == 21 ==> ctl.snapSeq == 0 && Words(cfg, 0, ctl.snapWord, sv.word))
    && (22 <= sv.at <= 23 ==> ctl.snapSeq == 0 && Words(cfg, 0, ctl.snapWord, SNAPSHOT_WORDS))
    && (sv.at == 24 ==> ctl.snapSeq == 2 * sv.k - 2 && Words(cfg, sv.k - 1, ctl.snapWord, SNAPSHOT_WORDS))
    && (sv.at == 25 ==> ctl.snapSeq == 2 * sv.k - 1 && Words(cfg, sv.k, ctl.snapWord, sv.word))
    && (sv.at == 26 ==> ctl.snapSeq == 2 * sv.k - 1 && Words(cfg, sv.k, ctl.snapWord, SNAPSHOT_WORDS))
    && (sv.at > 26 ==> ctl.snapSeq == 2 * cfg.updates && Words(cfg, cfg.updates, ctl.snapWord, SNAPSHOT_WORDS))
  }

  ghost predicate Sorted(log: seq<int>) {
    forall i, j :: 0 <= i < j < |log| ==> log[i] <= log[j]
  }

  ghost predicate AtMost(log: seq<int>, bound: int) {
    forall i :: 0 <= i < |log| ==> log[i] <= bound
  }

  /** The reader.  An attempt that began on `first` is still clean, or the sequence word
      has moved on and the attempt is doomed. */
  ghost predicate ReaderOk(cfg: Config, ctl: Control, p: Client) {
    && Sorted(p.log)
    && (p.at <= 21 ==> p.log == [])
    && (p.at > 21 ==> AtMost(p.log, ctl.snapSeq / 2))
    && p.accepted == |p.log| % TWO64
    && (24 <= p.at <= 25 ==>
          && p.first % 2 == 0
          && p.first <= ctl.snapSeq
          && (p.last ==> p.first == 2 * cfg.updates)
          && (p.first == ctl.snapSeq ==> Words(cfg, p.first / 2, p.vals, |p.vals|))
          && AtMost(p.log, p.first / 2))
    && (p.at > 25 ==> |p.log| > 0 && p.log[|p.log| - 1] == cfg.updates)
  }

  // --- Error counters --------------------------------------------------------------

  /** The client counted no error, and the counters it leaves for the server agree. */
  ghost predicate ClientClean(mem: Lane, p: Client) {
    && p.errors == 0 && p.snapErrors == 0 && mem.pktErrors == 0
    && (p.at > 26 ==> mem.seqAccepted == p.accepted)
  }

  /** The client's 64-bit count of accepted snapshots came back to zero. */
  predicate Wrapped(p: Client) {
    |p.log| % TWO64 == 0
  }

  ghost predicate ServerErrors(sv: Server, p0: Client, p1: Client) {
    && sv.errors == Flag(Beyond(sv, 31, 0) && Wrapped(p0)) + Flag(Beyond(sv, 31, 1) && Wrapped(p1))
    && sv.clientErrors == 0
  }

  // --- The invariant ---------------------------------------------------------------

  ghost predicate LaneInv(cfg: Config, c: int, sv: Server, ctl: Control, mem: Lane, p: Client) {
    && LaneCells(cfg, c, sv, mem, p)
    && Causal(cfg, c, sv, p)
    && Packets(cfg, c, sv, mem, p)
    && PayloadOk(cfg, c, sv, mem, p)
    && ChecksumOk(cfg, c, mem, p)
    && ReaderOk(cfg, ctl, p)
    && ClientClean(mem, p)
  }

  ghost predicate Inv(cfg: Config, s: State) {
    && Wellformed(cfg, s)
    && ControlCells(s.server, s.control)
    && MaskCell(s.control, s.clients[0], s.clients[1])
    && SnapshotCells(cfg, s.server, s.control)
    && ServerErrors(s.server, s.clients[0], s.clients[1])
    && LaneInv(cfg, 0, s.server, s.control, s.lanes[0], s.clients[0])
    && LaneInv(cfg, 1, s.server, s.control, s.lanes[1], s.clients[1])
  }

  /** A lane and its client before the first step. */
  ghost predicate Untouched(mem: Lane, p: Client) {
    && p.at == 0 && p.log == [] && p.accepted == 0 && p.errors == 0 && p.snapErrors == 0
    && mem.ready == mem.ack == mem.handshakeDone == mem.bulkDone == mem.bulkAck == mem.verifyDone == 0
    && mem.mixedDone == mem.seqReady == mem.seqDone == mem.pktErrors == 0
  }

  lemma UntouchedLane(cfg: Config, c: int, sv: Server, ctl: Control, mem: Lane, p: Client)
    requires cfg.Valid() && 0 <= c < 2 && Untouched(mem, p) && sv.at == 0
    ensures LaneInv(cfg, c, sv, ctl, mem, p)
  {
  }

  lemma UntouchedState(cfg: Config, s: State)
    requires cfg.Valid() && Wellformed(cfg, s) && s.server.at == 0 && s.server.errors == s.server.clientErrors == 0
    requires ControlCells(s.server, s.control) && s.control.clientsMask == 0
    requires Untouched(s.lanes[0], s.clients[0]) && Untouched(s.lanes[1], s.clients[1])
    ensures Inv(cfg, s)
  {
    UntouchedLane(cfg, 0, s.server, s.control, s.lanes[0], s.clients[0]);
    UntouchedLane(cfg, 1, s.server, s.control, s.lanes[1], s.clients[1]);
  }

  lemma InitialInv(cfg: Config)
    requires cfg.Valid()
    ensures Inv(cfg, Initial(cfg))
  {
    UntouchedState(cfg, Initial(cfg));
  }
}
