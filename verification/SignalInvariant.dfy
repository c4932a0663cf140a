/** The inductive invariant of the two-guest protocol. */
module SignalInvariant {
  import opened SignalModel

  /** The guest is past the poll of the wait at point `at`: it saw the awaited value. */
  predicate Saw(p: Guest, at: int) {
    p.at > at || (p.at == at && p.micro == 1)
  }

  /** The guest is between the two stores of the publication at point `at`. */
  predicate Half(p: Guest, at: int) {
    p.at == at && p.micro == 1
  }

  // --- Ping-pong counters ----------------------------------------------------------

  function Requested(cfg: Config, r: Guest): int {
    if r.at < 9 then 0 else if r.at == 9 then r.k - 1 else if r.at == 10 then r.k else cfg.iterations
  }

  function AckSeen(cfg: Config, r: Guest): int {
    if r.at < 9 then 0 else if r.at == 9 then r.k - 1
    else if r.at == 10 then (if r.micro == 1 then r.k else r.k - 1) else cfg.iterations
  }

  function RequestSeen(cfg: Config, w: Guest): int {
    if w.at < 8 then 0 else if w.at == 8 then (if w.micro == 1 then w.k else w.k - 1)
    else if w.at == 9 then w.k else cfg.iterations
  }

  function Acked(cfg: Config, w: Guest): int {
    if w.at < 8 then 0 else if w.at <= 9 then w.k - 1 else cfg.iterations
  }

  // --- Signal lines ----------------------------------------------------------------

  /** The line holds the value `v` and, unless a publication of `next` is half done, the
      checksum that belongs to `v`. */
  ghost predicate Holds(cfg: Config, m: Mem, line: int, v: int, half: bool, next: int)
    requires |m.area| == AREA_WORDS && 0 <= line <= 10
  {
    && m.area[8 * line] == v
    && (half ==> m.area[8 * line + 1] == cfg.Check(line, next))
    && (!half && v > 0 ==> m.area[8 * line + 1] == cfg.Check(line, v))
  }

  function StreamGeneration(r: Guest, w: Guest): int {
    if r.at > 15 then 2 else if w.at > 11 then 1 else 0
  }

  function StreamDone(r: Guest, w: Guest): int {
    if w.at > 15 then 2 else if r.at > 13 then 1 else 0
  }

  function FinalSignal(r: Guest, w: Guest): int {
    if r.at > 19 then 3 else if w.at > 17 then 2 else if r.at > 17 then 1 else 0
  }

  /** Lines written by one guest only. */
  ghost predicate OwnLines(cfg: Config, m: Mem, r: Guest, w: Guest)
    requires |m.area| == AREA_WORDS
  {
    && (r.at > 2 ==> Holds(cfg, m, BOOTSTRAP, BOOT_MAGIC, false, 0))
    && (r.at > 3 ==> Holds(cfg, m, READER_READY, 1, false, 0))
    && (r.at > 0 ==>
          && Holds(cfg, m, WRITER_READY, if w.at > 4 then 1 else 0, Half(w, 4), 1)
          && Holds(cfg, m, LITMUS_GO, if r.at > 6 then 1 else 0, Half(r, 6), 1)
          && Holds(cfg, m, LITMUS_GENERATION, if w.at > 7 then 1 else 0, Half(w, 7), 1))
    && (r.at == 2 && r.micro == 1 ==> m.area[8 * BOOTSTRAP + 1] == cfg.Check(BOOTSTRAP, BOOT_MAGIC))
    && (r.at == 3 && r.micro == 1 ==> m.area[8 * READER_READY + 1] == cfg.Check(READER_READY, 1))
  }

  ghost predicate PingLines(cfg: Config, m: Mem, r: Guest, w: Guest)
    requires |m.area| == AREA_WORDS
  {
    r.at > 0 ==>
      && Holds(cfg, m, PING_REQUEST, Requested(cfg, r), Half(r, 9), r.k)
      && Holds(cfg, m, PING_ACK, Acked(cfg, w), Half(w, 9), w.k)
  }

  /** Lines written by both guests. */
  ghost predicate SharedLines(cfg: Config, m: Mem, r: Guest, w: Guest)
    requires |m.area| == AREA_WORDS
  {
    r.at > 0 ==>
      && Holds(cfg, m, STREAM_GENERATION, StreamGeneration(r, w), Half(r, 15) || Half(w, 11), if Half(r, 15) then 2 else 1)
      && Holds(cfg, m, STREAM_DONE, StreamDone(r, w), Half(w, 15) || Half(r, 13), if Half(w, 15) then 2 else 1)
      && Holds(cfg, m, FINAL_SIGNAL, FinalSignal(r, w), Half(r, 17) || Half(w, 17) || Half(r, 19),
               if Half(r, 19) then 3 else if Half(w, 17) then 2 else 1)
  }

  ghost predicate Lines(cfg: Config, s: State)
    requires |s.mem.area| == AREA_WORDS
  {
    && OwnLines(cfg, s.mem, s.reader, s.writer)
    && PingLines(cfg, s.mem, s.reader, s.writer)
    && SharedLines(cfg, s.mem, s.reader, s.writer)
  }

  ghost predicate Zeroed(m: Mem, r: Guest)
    requires |m.area| == AREA_WORDS
  {
    r.at == 0 ==> forall i :: 0 <= i < r.micro && i < AREA_WORDS ==> m.area[i] == 0
  }

  /** Every wait that was passed had its publication before it. */
  ghost predicate Causal(cfg: Config, r: Guest, w: Guest) {
    && w.at <= 19
    && (w.at > 0 ==> r.at > 3)
    && (Saw(r, 4) ==> w.at > 4)
    && (Saw(w, 5) ==> r.at > 6)
    && (Saw(r, 7) ==> w.at > 7)
    && AckSeen(cfg, r) <= Acked(cfg, w)
    && RequestSeen(cfg, w) <= Requested(cfg, r)
    && (Saw(r, 11) ==> w.at > 11)
    && (Saw(w, 12) ==> r.at > 13)
    && (Saw(w, 13) ==> r.at > 15)
    && (Saw(r, 16) ==> w.at > 15)
    && (Saw(w, 16) ==> r.at > 17)
    && (Saw(r, 18) ==> w.at > 17)
    && (Saw(w, 18) ==> r.at > 19)
  }

  // --- Data ------------------------------------------------------------------------

  ghost predicate PayloadIs(cfg: Config, m: Mem, generation: int, upTo: int)
    requires |m.area| == AREA_WORDS
  {
    forall i :: 0 <= i < upTo && i < 8 ==> m.area[8 * PAYLOAD + i] == cfg.mix.payloadValue(generation, i)
  }

  ghost predicate StreamIs(cfg: Config, m: Mem, generation: int, upTo: int) {
    forall i :: 0 <= i < upTo && i < |m.stream| ==> m.stream[i] == cfg.mix.streamValue(generation, i)
  }

  ghost predicate Data(cfg: Config, m: Mem, r: Guest, w: Guest)
    requires |m.area| == AREA_WORDS
  {
    && (r.at == 1 ==> PayloadIs(cfg, m, 0, r.micro))
    && (r.at > 1 && w.at < 6 ==> PayloadIs(cfg, m, 0, 8))
    && (w.at == 6 ==> PayloadIs(cfg, m, 1, w.micro))
    && (w.at > 6 ==> PayloadIs(cfg, m, 1, 8))
    && (w.at == 10 ==> StreamIs(cfg, m, 1, w.micro))
    && (w.at > 10 && r.at < 14 ==> StreamIs(cfg, m, 1, cfg.words))
    && (r.at == 14 ==> StreamIs(cfg, m, 2, r.micro))
    && (r.at > 14 ==> StreamIs(cfg, m, 2, cfg.words))
  }

  /** Running payload checksums: the reader's last one and the writer's last one are both
      over generation 1. */
  ghost predicate Sums(cfg: Config, r: Guest, w: Guest) {
    && (r.at == 8 && r.micro > 0 ==> r.sum == cfg.SumTo(1, r.micro))
    && (r.at > 8 ==> r.sum == cfg.SumTo(1, 8))
    && (w.at == 6 && w.micro > 0 ==> w.sum == cfg.SumTo(1, w.micro))
    && (w.at > 6 ==> w.sum == cfg.SumTo(1, 8))
  }

  ghost predicate Clean(p: Guest) {
    p.errors == 0 && !p.fatal
  }

  ghost predicate Inv(cfg: Config, s: State) {
    && Wellformed(cfg, s)
    && Zeroed(s.mem, s.reader)
    && Lines(cfg, s)
    && Causal(cfg, s.reader, s.writer)
    && Data(cfg, s.mem, s.reader, s.writer)
    && Sums(cfg, s.reader, s.writer)
    && Clean(s.reader) && Clean(s.writer)
  }

  lemma InitialInv(cfg: Config, s: State)
    requires cfg.Valid() && Initial(cfg, s)
    ensures Inv(cfg, s)
  {
  }
}
