/** The two-guest coherence application: a reader and a writer exchange (value,
    checksum) signals through isolated cache lines, one payload line and a stream area.

    Each step is one load or one store of one 64-bit word.  The source separates the
    accesses with `fence rw,rw` (section 2.7 of the RISC-V Unprivileged ISA,
    20191213); the model assumes a sequentially consistent interleaving with the
    accesses of each guest in program order. */
module SignalModel {

  const BOOT_MAGIC: int := 0x43584c4249415050
  const AREA_WORDS: int := 88   // eleven lines of eight words

  // The lines of the shared area, in layout order; line 5 is the payload.
  const BOOTSTRAP: int := 0
  const READER_READY: int := 1
  const WRITER_READY: int := 2
  const LITMUS_GO: int := 3
  const LITMUS_GENERATION: int := 4
  const PAYLOAD: int := 5
  const PING_REQUEST: int := 6
  const PING_ACK: int := 7
  const STREAM_GENERATION: int := 8
  const STREAM_DONE: int := 9
  const FINAL_SIGNAL: int := 10

  /** The bit mixers; no theorem depends on what they compute.  The tag of a signal is
      determined by its line: bootstrap 0x10, reader_ready 0x20 and so on in steps of
      0x10, the payload line having none. */
  datatype Mixers = Mixers(
    signalChecksum: (int, int) -> int,    // value, tag
    payloadValue: (int, int) -> int,      // generation, index
    payloadSum: (int, int, int) -> int,   // checksum so far, value, index
    streamValue: (int, int) -> int)       // generation, word index

  function Tag(line: int): int {
    if line < PAYLOAD then 0x10 * (line + 1) else 0x10 * line
  }

  datatype Config = Config(iterations: int, words: int, mix: Mixers) {
    ghost predicate Valid() {
      1 <= iterations <= 16384 && 1 <= words
    }

    function Check(line: int, value: int): int {
      mix.signalChecksum(value, Tag(line))
    }

    /** The payload checksum over the first `n` words of a generation. */
    function SumTo(generation: int, n: int): int
      decreases n
    {
      if n <= 0 then 0 else mix.payloadSum(SumTo(generation, n - 1), mix.payloadValue(generation, n - 1), n - 1)
    }
  }

  /** Shared memory: the control area word by word, and the stream. */
  datatype Mem = Mem(area: seq<int>, stream: seq<int>)

  /** One of the subroutines that `run_reader` and `run_writer` are sequences of. */
  datatype Op =
    | Launch
    | ZeroArea
    | WritePayload(generation: int)
    | VerifyPayload(generation: int)
    | Publish(line: int, value: int)
    | Await(line: int, value: int)
    | WriteStream(generation: int)
    | VerifyStream(generation: int)
    | Done

  /** A guest: the call it is in, the loop counter of the ping-pong, how many accesses of
      the call it has made, its running payload checksum, its error counter, and whether
      it stopped with a protocol error. */
  datatype Guest = Guest(at: int, k: int, micro: int, sum: int, errors: int, fatal: bool)

  datatype State = State(mem: Mem, reader: Guest, writer: Guest)

  function ReaderOp(r: Guest): Op {
    if r.at == 0 then ZeroArea
    else if r.at == 1 then WritePayload(0)
    else if r.at == 2 then Publish(BOOTSTRAP, BOOT_MAGIC)
    else if r.at == 3 then Publish(READER_READY, 1)
    else if r.at == 4 then Await(WRITER_READY, 1)
    else if r.at == 5 then VerifyPayload(0)
    else if r.at == 6 then Publish(LITMUS_GO, 1)
    else if r.at == 7 then Await(LITMUS_GENERATION, 1)
    else if r.at == 8 then VerifyPayload(1)
    else if r.at == 9 then Publish(PING_REQUEST, r.k)
    else if r.at == 10 then Await(PING_ACK, r.k)
    else if r.at == 11 then Await(STREAM_GENERATION, 1)
    else if r.at == 12 then VerifyStream(1)
    else if r.at == 13 then Publish(STREAM_DONE, 1)
    else if r.at == 14 then WriteStream(2)
    else if r.at == 15 then Publish(STREAM_GENERATION, 2)
    else if r.at == 16 then Await(STREAM_DONE, 2)
    else if r.at == 17 then Publish(FINAL_SIGNAL, 1)
    else if r.at == 18 then Await(FINAL_SIGNAL, 2)
    else if r.at == 19 then Publish(FINAL_SIGNAL, 3)
    else Done
  }

  /** The writer is launched by the host after it saw the reader's ready record. */
  function WriterOp(w: Guest): Op {
    if w.at == 0 then Launch
    else if w.at == 1 then Await(BOOTSTRAP, BOOT_MAGIC)
    else if w.at == 2 then Await(READER_READY, 1)
    else if w.at == 3 then VerifyPayload(0)
    else if w.at == 4 then Publish(WRITER_READY, 1)
    else if w.at == 5 then Await(LITMUS_GO, 1)
    else if w.at == 6 then WritePayload(1)
    else if w.at == 7 then Publish(LITMUS_GENERATION, 1)
    else if w.at == 8 then Await(PING_REQUEST, w.k)
    else if w.at == 9 then Publish(PING_ACK, w.k)
    else if w.at == 10 then WriteStream(1)
    else if w.at == 11 then Publish(STREAM_GENERATION, 1)
    else if w.at == 12 then Await(STREAM_DONE, 1)
    else if w.at == 13 then Await(STREAM_GENERATION, 2)
    else if w.at == 14 then VerifyStream(2)
    else if w.at == 15 then Publish(STREAM_DONE, 2)
    else if w.at == 16 then Await(FINAL_SIGNAL, 1)
    else if w.at == 17 then Publish(FINAL_SIGNAL, 2)
    else if w.at == 18 then Await(FINAL_SIGNAL, 3)
    else Done
  }

  /** Accesses that a call makes when it does not have to poll. */
  function Length(cfg: Config, op: Op): int {
    match op
    case Launch => 1
    case ZeroArea => AREA_WORDS
    case WritePayload(_) => 8
    case VerifyPayload(_) => 8
    case Publish(_, _) => 2
    case Await(_, _) => 2
    case WriteStream(_) => cfg.words
    case VerifyStream(_) => cfg.words
    case Done => 0
  }

  ghost predicate Shaped(cfg: Config, m: Mem) {
    |m.area| == AREA_WORDS && |m.stream| == cfg.words
  }

  ghost predicate OpOk(op: Op) {
    op.Publish? || op.Await? ==> 0 <= op.line <= 10 && op.line != PAYLOAD
  }

  /** The store a call makes at its access number `micro`, if it makes one. */
  function Stored(cfg: Config, op: Op, micro: int, m: Mem): Mem
    requires Shaped(cfg, m) && OpOk(op) && 0 <= micro < Length(cfg, op)
  {
    match op
    case ZeroArea => m.(area := m.area[micro := 0])
    case WritePayload(g) => m.(area := m.area[8 * PAYLOAD + micro := cfg.mix.payloadValue(g, micro)])
    case Publish(line, v) =>
      if micro == 0 then m.(area := m.area[8 * line + 1 := cfg.Check(line, v)])
      else m.(area := m.area[8 * line := v])
    case WriteStream(g) => m.(stream := m.stream[micro := cfg.mix.streamValue(g, micro)])
    case _ => m
  }

  /** What the access does to the guest's own state, apart from moving on. */
  function Local(cfg: Config, op: Op, m: Mem, p: Guest): Guest
    requires Shaped(cfg, m) && OpOk(op) && 0 <= p.micro < Length(cfg, op)
  {
    var start := if p.micro == 0 then 0 else p.sum;
    match op
    case WritePayload(g) => p.(sum := cfg.mix.payloadSum(start, cfg.mix.payloadValue(g, p.micro), p.micro))
    case VerifyPayload(g) =>
      var observed := m.area[8 * PAYLOAD + p.micro];
      p.(sum := cfg.mix.payloadSum(start, observed, p.micro),
         errors := if observed != cfg.mix.payloadValue(g, p.micro) then p.errors + 1 else p.errors)
    case Await(line, v) =>
      if p.micro == 1 then p.(errors := if m.area[8 * line + 1] != cfg.Check(line, v) then p.errors + 1 else p.errors)
      else p.(fatal := m.area[8 * line] > v && v < BOOT_MAGIC)
    case VerifyStream(g) =>
      p.(errors := if m.stream[p.micro] != cfg.mix.streamValue(g, p.micro) then p.errors + 1 else p.errors)
    case _ => p
  }

  /** A poll that does not see the awaited value keeps polling. */
  predicate Polls(op: Op, m: Mem, p: Guest)
    requires |m.area| == AREA_WORDS && OpOk(op)
  {
    op.Await? && p.micro == 0 && m.area[8 * op.line] != op.value
  }

  function ReaderNext(cfg: Config, r: Guest): Guest {
    if r.at == 8 then r.(at := 9, k := 1, micro := 0)
    else if r.at == 10 && r.k < cfg.iterations then r.(at := 9, k := r.k + 1, micro := 0)
    else r.(at := r.at + 1, micro := 0)
  }

  function WriterNext(cfg: Config, w: Guest): Guest {
    if w.at == 7 then w.(at := 8, k := 1, micro := 0)
    else if w.at == 9 && w.k < cfg.iterations then w.(at := 8, k := w.k + 1, micro := 0)
    else w.(at := w.at + 1, micro := 0)
  }

  ghost predicate GuestOk(cfg: Config, op: Op, p: Guest) {
    && OpOk(op)
    && (op.Done? || 0 <= p.micro < Length(cfg, op))
    && 0 <= p.at <= 20
    && (8 <= p.at <= 10 && (op.Publish? || op.Await?) ==> 1 <= p.k <= cfg.iterations)
  }

  ghost predicate Wellformed(cfg: Config, s: State) {
    Shaped(cfg, s.mem) && GuestOk(cfg, ReaderOp(s.reader), s.reader) && GuestOk(cfg, WriterOp(s.writer), s.writer)
  }

  /** One access of the reader; a guest that is done or stopped makes none. */
  function ReaderStep(cfg: Config, s: State): State
    requires Wellformed(cfg, s)
  {
    var op := ReaderOp(s.reader);
    if op.Done? || s.reader.fatal then s
    else
      var r := Local(cfg, op, s.mem, s.reader);
      s.(mem := Stored(cfg, op, r.micro, s.mem),
         reader := if Polls(op, s.mem, r) then r
                   else if r.micro + 1 < Length(cfg, op) then r.(micro := r.micro + 1)
                   else ReaderNext(cfg, r))
  }

  /** One access of the writer, which first waits to be launched. */
  function WriterStep(cfg: Config, s: State): State
    requires Wellformed(cfg, s)
  {
    var op := WriterOp(s.writer);
    if op.Done? || s.writer.fatal || (op.Launch? && s.reader.at < 4) then s
    else
      var w := Local(cfg, op, s.mem, s.writer);
      s.(mem := Stored(cfg, op, w.micro, s.mem),
         writer := if Polls(op, s.mem, w) then w
                   else if w.micro + 1 < Length(cfg, op) then w.(micro := w.micro + 1)
                   else WriterNext(cfg, w))
  }

  /** Any memory contents, reader at its first access, writer not yet launched. */
  ghost predicate Initial(cfg: Config, s: State) {
    Shaped(cfg, s.mem) && s.reader == Guest(0, 0, 0, 0, 0, false) && s.writer == Guest(0, 0, 0, 0, 0, false)
  }

  ghost predicate Step(cfg: Config, s: State, t: State) {
    Wellformed(cfg, s) && (t == ReaderStep(cfg, s) || t == WriterStep(cfg, s))
  }

  ghost predicate StepAt(cfg: Config, path: seq<State>, i: int)
    requires 0 <= i < |path| - 1
  {
    Step(cfg, path[i], path[i + 1])
  }

  ghost predicate Path(cfg: Config, path: seq<State>) {
    |path| > 0 && forall i :: 0 <= i < |path| - 1 ==> StepAt(cfg, path, i)
  }

  ghost predicate Run(cfg: Config, run: seq<State>) {
    Path(cfg, run) && Initial(cfg, run[0])
  }
}
