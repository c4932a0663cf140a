/** The three-process shared-memory probe: one server, two clients, one control page
    and one payload area per client.

    Every step is one load or one store of one 64-bit word (or the one atomic
    fetch-or), and a run is any interleaving of steps.  The source uses acquire loads,
    release stores, relaxed accesses and one sequentially consistent store (section
    7.17.3 of ISO/IEC 9899:2011); the model assumes that the interleaving is
    sequentially consistent and that each process's accesses take effect in program
    order.
 */
module ProbeModel {

  const TWO64: int := 0x1_0000_0000_0000_0000
  const CHECKSUM_SEED: int := 0xcbf2_9ce4_8422_2325
  const MIXED_PASSES: int := 4
  const SNAPSHOT_WORDS: int := 7

  /** Reduction of a mathematical value to a 64-bit word. */
  function Wrap(x: int): (w: int)
    ensures 0 <= w < TWO64
    ensures 0 <= x < TWO64 ==> w == x
  {
    x % TWO64
  }

  /** `++errors` when a comparison failed. */
  function Bump(errors: int, wrong: bool): int {
    if wrong then Wrap(errors + 1) else errors
  }

  /** The value functions.  No theorem depends on what they compute, so they are
      parameters of the model; `ProbeValues.Real` is the choice the program makes. */
  datatype Mixers = Mixers(
    packetValue: (int, int) -> int,            // client, seq
    packetChecksum: (int, int, int) -> int,    // client, seq, value
    packetReply: (int, int, int) -> int,       // client, seq, value
    payloadValue: (int, int) -> int,           // client, word
    complement: int -> int,
    mixedWrite: (int, int, int, int) -> int,   // phase, client, pass, word
    checksumStep: (int, int, int, int) -> int, // checksum, value, pass, word
    snapshotValue: (int, int) -> int)          // version, word

  /** Command-line parameters with the limits that `main` enforces; `words` is the
      payload size in 64-bit words, which the clients check is not zero. */
  datatype Config = Config(iterations: int, words: int, updates: int, mix: Mixers) {
    ghost predicate Valid() {
      1 <= iterations <= 1_000_000_000 && 1 <= words && 1 <= updates <= 1_000_000_000
    }

    /** What the server wrote back over the client's bulk data. */
    function Writeback(c: int, word: int): int {
      mix.complement(mix.payloadValue(c, word))
    }

    function MixedRead(phase: int, c: int, word: int): int {
      if phase == 1 then Writeback(c, word) else mix.mixedWrite(1, c, MIXED_PASSES - 1, word)
    }

    /** The reader's checksum after `pass` full passes and `word` words of the next. */
    function PartialChecksum(phase: int, c: int, pass: int, word: int): int
      decreases pass, word
    {
      if word > 0 then
        mix.checksumStep(PartialChecksum(phase, c, pass, word - 1), MixedRead(phase, c, word - 1), pass, word - 1)
      else if pass > 0 then
        PartialChecksum(phase, c, pass - 1, words)
      else
        CHECKSUM_SEED
    }

    function ExpectedChecksum(phase: int, c: int): int {
      PartialChecksum(phase, c, MIXED_PASSES - 1, words)
    }
  }

  /** The control page. */
  datatype Control = Control(
    initialized: int, clientsMask: int, start: int, bulkStart: int, mixedPhase: int,
    seqlockStart: int, seqlockStop: int, snapSeq: int, snapWord: seq<int>)

  /** One client's lane and its payload area. */
  datatype Lane = Lane(
    ready: int, ack: int, pktSeq: int, pktValue: int, pktChecksum: int, pktReply: int, pktErrors: int,
    handshakeDone: int, bulkDone: int, bulkAck: int, verifyDone: int, mixedDone: int, mixedChecksum: int,
    seqReady: int, seqDone: int, seqAccepted: int, payload: seq<int>)

  /** The server: a program point and its local variables.  `k` is the sequence number,
      the mixed phase or the snapshot version, whichever loop the server is in; `who`
      and `word` are the inner loop variables. */
  datatype Server = Server(at: int, k: int, who: int, word: int, value: int, errors: int, clientErrors: int)

  /** A client: a program point and its local variables.  `k` is the sequence number or
      the mixed phase, `last` says that `seqlock_stop` was seen, `first` and `vals` are
      what the current snapshot attempt has loaded.  `log` is a history variable: the
      versions of the snapshots the client accepted, oldest first. */
  datatype Client = Client(
    at: int, k: int, pass: int, word: int, sum: int, errors: int,
    last: bool, first: int, vals: seq<int>, accepted: int, snapErrors: int, log: seq<int>)

  datatype State = State(server: Server, control: Control, lanes: seq<Lane>, clients: seq<Client>)

  function ZeroLane(words: int): Lane
    requires 0 <= words
  {
    Lane(0, 0, 0, 0, 0, 0, 0, 0, 0, 0, 0, 0, 0, 0, 0, 0, seq(words, _ => 0))
  }

  /** The arena just after the server cleared it and filled in the metadata. */
  function Initial(cfg: Config): State
    requires 0 <= cfg.words
  {
    var client := Client(0, 0, 0, 0, 0, 0, false, 0, [], 0, 0, []);
    State(Server(0, 0, 0, 0, 0, 0, 0),
          Control(0, 0, 0, 0, 0, 0, 0, 0, seq(SNAPSHOT_WORDS, _ => 0)),
          [ZeroLane(cfg.words), ZeroLane(cfg.words)],
          [client, client])
  }

  /** Sizes that no step changes. */
  ghost predicate Shaped(cfg: Config, s: State) {
    && |s.lanes| == 2 && |s.clients| == 2 && |s.control.snapWord| == SNAPSHOT_WORDS
    && |s.lanes[0].payload| == cfg.words && |s.lanes[1].payload| == cfg.words
  }

  // --- The server ------------------------------------------------------------------
  // Program points, in program order:
  //   0 store initialized      1 wait both registrations   2 store start
  //   3 wait ready             4 load packet.value         5 load packet.seq
  //   6 load packet.checksum   7 store packet.reply        8 store ack
  //   9 wait handshake_done   10 store bulk_start         11 wait bulk_done
  //  12 load payload word     13 store payload word       14 store bulk_ack
  //  15 wait verify_done      16 store mixed_phase        17 wait mixed_done
  //  18 load payload word     19 load mixed_checksum
  //  20 store snapshot.seq    21 store snapshot.word      22 wait seqlock_ready
  //  23 store seqlock_start   24 store odd sequence       25 store snapshot.word
  //  26 store even sequence   27 store seqlock_stop       28 wait seqlock_done
  //  29 load snapshot.seq     30 load snapshot.word       31 load seqlock_accepted
  //  32 load packet.errors    33 done

  ghost predicate ServerPcOk(cfg: Config, sv: Server) {
    && 0 <= sv.at <= 33
    && 0 <= sv.who <= 1
    && (3 <= sv.at <= 8 ==> 1 <= sv.k <= cfg.iterations)
    && (12 <= sv.at <= 13 || sv.at == 18 ==> 0 <= sv.word < cfg.words)
    && (16 <= sv.at <= 19 ==> 1 <= sv.k <= 2)
    && (sv.at == 21 || sv.at == 25 || sv.at == 30 ==> 0 <= sv.word < SNAPSHOT_WORDS)
    && (24 <= sv.at <= 26 ==> 1 <= sv.k <= cfg.updates)
  }

  /** A wait that is repeated for both clients: pass to the next client, then go on. */
  function Passed(sv: Server): Server {
    if sv.who == 0 then sv.(who := 1) else sv.(who := 0, at := sv.at + 1, word := 0)
  }

  /** The lane the server looks at: in the mixed phases the writer's payload (point 18)
      and the reader's checksum (point 19), otherwise the lane of the loop variable. */
  function Focus(sv: Server): int {
    if sv.at == 18 then sv.k - 1 else if sv.at == 19 then 2 - sv.k else sv.who
  }

  /** What one access of the server leaves: its locals, the control page, the lane. */
  datatype Effect = Effect(sv: Server, ctl: Control, lane: Lane)

  /** Registration, start and the handshake loop (points 0 to 8). */
  function ServerHandshake(cfg: Config, sv: Server, ctl: Control, lane: Lane): Effect
    requires ServerPcOk(cfg, sv) && sv.at <= 8
  {
    var m := cfg.mix;
    if sv.at == 0 then Effect(sv.(at := 1), ctl.(initialized := 1), lane)
    else if sv.at == 1 then Effect(if ctl.clientsMask % 4 == 3 then sv.(at := 2) else sv, ctl, lane)
    else if sv.at == 2 then Effect(sv.(at := 3, k := 1, who := 0), ctl.(start := 1), lane)
    else if sv.at == 3 then Effect(if lane.ready == sv.k then sv.(at := 4) else sv, ctl, lane)
    else if sv.at == 4 then Effect(sv.(at := 5, value := lane.pktValue), ctl, lane)
    else if sv.at == 5 then
      Effect(if lane.pktSeq != sv.k then sv.(at := 7, errors := Bump(sv.errors, true)) else sv.(at := 6), ctl, lane)
    else if sv.at == 6 then
      var wrong := lane.pktChecksum != m.packetChecksum(sv.who, sv.k, sv.value)
                   || sv.value != m.packetValue(sv.who, sv.k);
      Effect(sv.(at := 7, errors := Bump(sv.errors, wrong)), ctl, lane)
    else if sv.at == 7 then
      Effect(sv.(at := 8), ctl, lane.(pktReply := m.packetReply(sv.who, sv.k, sv.value)))
    else
      Effect(if sv.who == 0 then sv.(at := 3, who := 1)
             else if sv.k < cfg.iterations then sv.(at := 3, who := 0, k := sv.k + 1)
             else sv.(at := 9, who := 0),
             ctl, lane.(ack := Wrap(sv.k)))
  }

  /** The bulk phase (points 9 to 15). */
  function ServerBulk(cfg: Config, sv: Server, ctl: Control, lane: Lane): Effect
    requires ServerPcOk(cfg, sv) && 9 <= sv.at <= 15 && |lane.payload| == cfg.words
  {
    var next := if sv.word + 1 < cfg.words then sv.(word := sv.word + 1) else Passed(sv).(word := 0);
    if sv.at == 9 then Effect(if lane.handshakeDone == 1 then Passed(sv) else sv, ctl, lane)
    else if sv.at == 10 then Effect(sv.(at := 11, who := 0), ctl.(bulkStart := 1), lane)
    else if sv.at == 11 then Effect(if lane.bulkDone == 1 then Passed(sv) else sv, ctl, lane)
    else if sv.at == 12 then
      var wrong := lane.payload[sv.word] != cfg.mix.payloadValue(sv.who, sv.word);
      Effect(next.(errors := Bump(sv.errors, wrong)), ctl, lane)
    else if sv.at == 13 then
      Effect(next, ctl, lane.(payload := lane.payload[sv.word := cfg.Writeback(sv.who, sv.word)]))
    else if sv.at == 14 then Effect(Passed(sv), ctl, lane.(bulkAck := 1))
    else Effect(if lane.verifyDone == 1 then Passed(sv).(k := 1) else sv, ctl, lane)
  }

  /** The two mixed phases (points 16 to 19); client `k - 1` writes in phase `k`. */
  function ServerMixed(cfg: Config, sv: Server, ctl: Control, lane: Lane): Effect
    requires ServerPcOk(cfg, sv) && 16 <= sv.at <= 19 && |lane.payload| == cfg.words
  {
    if sv.at == 16 then Effect(sv.(at := 17, who := 0), ctl.(mixedPhase := Wrap(sv.k)), lane)
    else if sv.at == 17 then Effect(if lane.mixedDone == sv.k then Passed(sv) else sv, ctl, lane)
    else if sv.at == 18 then
      var wrong := lane.payload[sv.word] != cfg.mix.mixedWrite(sv.k, sv.k - 1, MIXED_PASSES - 1, sv.word);
      var sv' := sv.(errors := Bump(sv.errors, wrong));
      Effect(if sv.word + 1 < cfg.words then sv'.(word := sv.word + 1) else sv'.(at := 19), ctl, lane)
    else
      var wrong := lane.mixedChecksum != cfg.ExpectedChecksum(sv.k, 2 - sv.k);
      var sv' := sv.(errors := Bump(sv.errors, wrong));
      Effect(if sv.k == 1 then sv'.(at := 16, k := 2) else sv'.(at := 20), ctl, lane)
  }

  /** The seqlock writer (points 20 to 27). */
  function ServerSeqlock(cfg: Config, sv: Server, ctl: Control, lane: Lane): Effect
    requires ServerPcOk(cfg, sv) && 20 <= sv.at <= 27 && |ctl.snapWord| == SNAPSHOT_WORDS
  {
    var more := sv.word + 1 < SNAPSHOT_WORDS;
    if sv.at == 20 then Effect(sv.(at := 21, word := 0), ctl.(snapSeq := 0), lane)
    else if sv.at == 21 then
      Effect(if more then sv.(word := sv.word + 1) else sv.(at := 22, who := 0),
             ctl.(snapWord := ctl.snapWord[sv.word := cfg.mix.snapshotValue(0, sv.word)]), lane)
    else if sv.at == 22 then Effect(if lane.seqReady == 1 then Passed(sv) else sv, ctl, lane)
    else if sv.at == 23 then Effect(sv.(at := 24, k := 1), ctl.(seqlockStart := 1), lane)
    else if sv.at == 24 then Effect(sv.(at := 25, word := 0), ctl.(snapSeq := Wrap(2 * sv.k - 1)), lane)
    else if sv.at == 25 then
      Effect(if more then sv.(word := sv.word + 1) else sv.(at := 26),
             ctl.(snapWord := ctl.snapWord[sv.word := cfg.mix.snapshotValue(sv.k, sv.word)]), lane)
    else if sv.at == 26 then
      Effect(if sv.k < cfg.updates then sv.(at := 24, k := sv.k + 1) else sv.(at := 27),
             ctl.(snapSeq := Wrap(2 * sv.k)), lane)
    else Effect(sv.(at := 28, who := 0), ctl.(seqlockStop := 1), lane)
  }

  /** The final checks (points 28 to 33). */
  function ServerFinal(cfg: Config, sv: Server, ctl: Control, lane: Lane): Effect
    requires ServerPcOk(cfg, sv) && 28 <= sv.at && |ctl.snapWord| == SNAPSHOT_WORDS
  {
    if sv.at == 28 then Effect(if lane.seqDone == 1 then Passed(sv) else sv, ctl, lane)
    else if sv.at == 29 then
      Effect(sv.(at := 30, word := 0, errors := Bump(sv.errors, ctl.snapSeq != Wrap(2 * cfg.updates))), ctl, lane)
    else if sv.at == 30 then
      var wrong := ctl.snapWord[sv.word] != cfg.mix.snapshotValue(cfg.updates, sv.word);
      var sv' := sv.(errors := Bump(sv.errors, wrong));
      Effect(if sv.word + 1 < SNAPSHOT_WORDS then sv'.(word := sv.word + 1) else sv'.(at := 31, who := 0), ctl, lane)
    else if sv.at == 31 then
      Effect(Passed(sv.(errors := Bump(sv.errors, lane.seqAccepted == 0))), ctl, lane)
    else if sv.at == 32 then
      Effect(Passed(sv.(clientErrors := Wrap(sv.clientErrors + lane.pktErrors))), ctl, lane)
    else Effect(sv, ctl, lane)
  }

  /** One access of the server.  A wait whose cell does not yet hold the awaited value
      stays where it is. */
  function ServerStep(cfg: Config, sv: Server, ctl: Control, lane: Lane): Effect
    requires ServerPcOk(cfg, sv) && |ctl.snapWord| == SNAPSHOT_WORDS && |lane.payload| == cfg.words
  {
    if sv.at <= 8 then ServerHandshake(cfg, sv, ctl, lane)
    else if sv.at <= 15 then ServerBulk(cfg, sv, ctl, lane)
    else if sv.at <= 19 then ServerMixed(cfg, sv, ctl, lane)
    else if sv.at <= 27 then ServerSeqlock(cfg, sv, ctl, lane)
    else ServerFinal(cfg, sv, ctl, lane)
  }

  /** One step of the server in the whole state. */
  function ServerMove(cfg: Config, s: State): State
    requires Shaped(cfg, s) && ServerPcOk(cfg, s.server)
  {
    var d := Focus(s.server);
    var e := ServerStep(cfg, s.server, s.control, s.lanes[d]);
    State(e.sv, e.ctl, s.lanes[d := e.lane], s.clients)
  }

  // --- A client --------------------------------------------------------------------
  // Program points, in program order:
  //   0 wait initialized       1 fetch-or clients_mask     2 wait start
  //   3 store packet.seq       4 store packet.value        5 store packet.checksum
  //   6 store ready            7 wait ack                  8 load packet.reply
  //   9 store handshake_done  10 wait bulk_start          11 store payload word
  //  12 store bulk_done       13 wait bulk_ack            14 load payload word
  //  15 store verify_done     16 wait mixed_phase         17 store or load payload word
  //  18 store mixed_checksum  19 store mixed_done         20 store seqlock_ready
  //  21 wait seqlock_start    22 load seqlock_stop        23 load snapshot.seq
  //  24 load snapshot.word    25 load snapshot.seq again  26 store seqlock_accepted
  //  27 store packet.errors   28 store seqlock_done       29 done

  ghost predicate ClientPcOk(cfg: Config, p: Client) {
    && 0 <= p.at <= 29
    && (3 <= p.at <= 8 ==> 1 <= p.k <= cfg.iterations)
    && (p.at == 11 || p.at == 14 || p.at == 17 ==> 0 <= p.word < cfg.words)
    && (16 <= p.at <= 19 ==> 1 <= p.k <= 2)
    && (p.at == 17 ==> 0 <= p.pass < MIXED_PASSES)
    && (p.at == 24 ==> |p.vals| < SNAPSHOT_WORDS)
    && (p.at == 25 ==> |p.vals| == SNAPSHOT_WORDS)
  }

  /** A client and the lane memory it works on. */
  datatype Side = Side(mem: Lane, proc: Client)

  /** Registration and the handshake loop (points 0 to 8). */
  function ClientHandshake(cfg: Config, c: int, ctl: Control, mem: Lane, p: Client): Side
    requires ClientPcOk(cfg, p) && p.at <= 8
  {
    var m := cfg.mix;
    if p.at == 0 then Side(mem, if ctl.initialized == 1 then p.(at := 1) else p)
    else if p.at == 1 then Side(mem, p.(at := 2))
    else if p.at == 2 then Side(mem, if ctl.start == 1 then p.(at := 3, k := 1) else p)
    else if p.at == 3 then Side(mem.(pktSeq := Wrap(p.k)), p.(at := 4))
    else if p.at == 4 then Side(mem.(pktValue := m.packetValue(c, p.k)), p.(at := 5))
    else if p.at == 5 then
      Side(mem.(pktChecksum := m.packetChecksum(c, p.k, m.packetValue(c, p.k))), p.(at := 6))
    else if p.at == 6 then Side(mem.(ready := Wrap(p.k)), p.(at := 7))
    else if p.at == 7 then Side(mem, if mem.ack == p.k then p.(at := 8) else p)
    else
      var p' := p.(errors := Bump(p.errors, mem.pktReply != m.packetReply(c, p.k, m.packetValue(c, p.k))));
      Side(mem, if p.k < cfg.iterations then p'.(at := 3, k := p.k + 1) else p'.(at := 9))
  }

  /** The bulk phase (points 9 to 15). */
  function ClientBulk(cfg: Config, c: int, ctl: Control, mem: Lane, p: Client): Side
    requires ClientPcOk(cfg, p) && 9 <= p.at <= 15 && |mem.payload| == cfg.words
  {
    var next := if p.word + 1 < cfg.words then p.(word := p.word + 1) else p.(at := p.at + 1);
    if p.at == 9 then Side(mem.(handshakeDone := 1), p.(at := 10))
    else if p.at == 10 then Side(mem, if ctl.bulkStart == 1 then p.(at := 11, word := 0) else p)
    else if p.at == 11 then
      Side(mem.(payload := mem.payload[p.word := cfg.mix.payloadValue(c, p.word)]), next)
    else if p.at == 12 then Side(mem.(bulkDone := 1), p.(at := 13))
    else if p.at == 13 then Side(mem, if mem.bulkAck == 1 then p.(at := 14, word := 0) else p)
    else if p.at == 14 then
      Side(mem, next.(errors := Bump(p.errors, mem.payload[p.word] != cfg.Writeback(c, p.word))))
    else Side(mem.(verifyDone := 1), p.(at := 16, k := 1))
  }

  /** The two mixed phases (points 16 to 19): four passes over the client's own payload,
      storing when the client is the phase's writer and summing otherwise. */
  function ClientMixed(cfg: Config, c: int, ctl: Control, mem: Lane, p: Client): Side
    requires ClientPcOk(cfg, p) && 16 <= p.at <= 19 && |mem.payload| == cfg.words
  {
    if p.at == 16 then
      Side(mem, if ctl.mixedPhase == p.k then p.(at := 17, pass := 0, word := 0, sum := CHECKSUM_SEED) else p)
    else if p.at == 17 then
      var next := if p.word + 1 < cfg.words then p.(word := p.word + 1)
                  else if p.pass + 1 < MIXED_PASSES then p.(pass := p.pass + 1, word := 0)
                  else p.(at := 18);
      if c == p.k - 1 then
        Side(mem.(payload := mem.payload[p.word := cfg.mix.mixedWrite(p.k, c, p.pass, p.word)]), next)
      else
        Side(mem, next.(sum := cfg.mix.checksumStep(p.sum, mem.payload[p.word], p.pass, p.word)))
    else if p.at == 18 then Side(mem.(mixedChecksum := p.sum), p.(at := 19))
    else Side(mem.(mixedDone := Wrap(p.k)), if p.k == 1 then p.(at := 16, k := 2) else p.(at := 20))
  }

  /** Number of loaded words that differ from those of the version, from `word` on. */
  function Mismatches(cfg: Config, version: int, vals: seq<int>, word: nat): nat
    requires word <= |vals|
    decreases |vals| - word
  {
    if word == |vals| then 0
    else (if vals[word] != cfg.mix.snapshotValue(version, word) then 1 else 0)
         + Mismatches(cfg, version, vals, word + 1)
  }

  /** A failed `snapshot_try_read`: poll the stop word again, unless it was seen. */
  function Retry(p: Client): Client {
    p.(at := if p.last then 23 else 22)
  }

  /** The end of `snapshot_try_read`: compare the second load of the sequence word and,
      when the snapshot counts, check every word against its version. */
  function FinishTry(cfg: Config, p: Client, second: int): Client {
    if p.first != second || second % 2 == 1 then Retry(p)
    else p.(at := if p.last then 26 else 22,
            accepted := Wrap(p.accepted + 1),
            snapErrors := Wrap(p.snapErrors + Mismatches(cfg, second / 2, p.vals, 0)),
            log := p.log + [second / 2])
  }

  /** The seqlock reader (points 20 to 29). */
  function ClientSeqlock(cfg: Config, ctl: Control, mem: Lane, p: Client): Side
    requires ClientPcOk(cfg, p) && 20 <= p.at && |ctl.snapWord| == SNAPSHOT_WORDS
  {
    if p.at == 20 then Side(mem.(seqReady := 1), p.(at := 21))
    else if p.at == 21 then Side(mem, if ctl.seqlockStart == 1 then p.(at := 22) else p)
    else if p.at == 22 then Side(mem, p.(at := 23, last := ctl.seqlockStop != 0))
    else if p.at == 23 then
      Side(mem, if ctl.snapSeq % 2 == 1 then Retry(p) else p.(at := 24, first := ctl.snapSeq, vals := []))
    else if p.at == 24 then
      var p' := p.(vals := p.vals + [ctl.snapWord[|p.vals|]]);
      Side(mem, if |p.vals| + 1 < SNAPSHOT_WORDS then p' else p'.(at := 25))
    else if p.at == 25 then Side(mem, FinishTry(cfg, p, ctl.snapSeq))
    else if p.at == 26 then
      Side(mem.(seqAccepted := p.accepted), p.(at := 27, errors := Wrap(p.errors + p.snapErrors)))
    else if p.at == 27 then Side(mem.(pktErrors := p.errors), p.(at := 28))
    else if p.at == 28 then Side(mem.(seqDone := 1), p.(at := 29))
    else Side(mem, p)
  }

  /** One access of client `c`, on its own lane and the control page. */
  function ClientStep(cfg: Config, c: int, ctl: Control, mem: Lane, p: Client): Side
    requires ClientPcOk(cfg, p) && |ctl.snapWord| == SNAPSHOT_WORDS && |mem.payload| == cfg.words
  {
    if p.at <= 8 then ClientHandshake(cfg, c, ctl, mem, p)
    else if p.at <= 15 then ClientBulk(cfg, c, ctl, mem, p)
    else if p.at <= 19 then ClientMixed(cfg, c, ctl, mem, p)
    else ClientSeqlock(cfg, ctl, mem, p)
  }

  /** The atomic fetch-or of bit `c` into the registration word: that bit is then one, and
      the other stays. */
  function SetBit(mask: int, c: int): (after: int)
    ensures 0 <= mask < 4 ==> 0 <= after < 4
    ensures 0 <= mask < 4 ==> if c == 0 then after % 2 == 1 && after / 2 == mask / 2 else after / 2 == 1 && after % 2 == mask % 2
  {
    var bit := if c == 0 then 1 else 2;
    if mask / bit % 2 == 1 then mask else Wrap(mask + bit)
  }

  /** One step of client `c` in the whole state. */
  function ClientMove(cfg: Config, c: int, s: State): State
    requires 0 <= c < 2 && Shaped(cfg, s) && ClientPcOk(cfg, s.clients[c])
  {
    var side := ClientStep(cfg, c, s.control, s.lanes[c], s.clients[c]);
    var ctl := if s.clients[c].at == 1 then s.control.(clientsMask := SetBit(s.control.clientsMask, c))
               else s.control;
    State(s.server, ctl, s.lanes[c := side.mem], s.clients[c := side.proc])
  }

  // --- Runs ------------------------------------------------------------------------

  /** Sizes and program points in range. */
  ghost predicate Wellformed(cfg: Config, s: State) {
    Shaped(cfg, s) && ServerPcOk(cfg, s.server) && ClientPcOk(cfg, s.clients[0]) && ClientPcOk(cfg, s.clients[1])
  }

  /** One step of some process. */
  ghost predicate Step(cfg: Config, s: State, s': State) {
    && Wellformed(cfg, s)
    && (s' == ServerMove(cfg, s) || s' == ClientMove(cfg, 0, s) || s' == ClientMove(cfg, 1, s))
  }

  ghost predicate StepAt(cfg: Config, path: seq<State>, i: int)
    requires 0 <= i < |path| - 1
  {
    Step(cfg, path[i], path[i + 1])
  }

  /** A sequence of steps: any interleaving of the three processes. */
  ghost predicate Path(cfg: Config, path: seq<State>) {
    |path| > 0 && forall i :: 0 <= i < |path| - 1 ==> StepAt(cfg, path, i)
  }

  /** A finite run: a sequence of steps from the cleared arena. */
  ghost predicate Run(cfg: Config, run: seq<State>)
    requires cfg.Valid()
  {
    Path(cfg, run) && run[0] == Initial(cfg)
  }

  /** All three processes have finished. */
  ghost predicate Finished(s: State) {
    s.server.at == 33 && |s.clients| == 2 && s.clients[0].at == 29 && s.clients[1].at == 29
  }
}
