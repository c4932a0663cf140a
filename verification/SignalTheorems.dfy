/** Whole runs of the two-guest protocol. */
module SignalTheorems {
  import opened Schedules
  import opened SignalModel
  import opened SignalInvariant
  import opened SignalSafety

  lemma StepKeepsInv(cfg: Config, s: State, t: State)
    requires cfg.Valid() && Inv(cfg, s) && Step(cfg, s, t)
    ensures Inv(cfg, t)
  {
    if t == ReaderStep(cfg, s) {
      ReaderKeepsInv(cfg, s, t);
    } else {
      WriterKeepsInv(cfg, s, t);
    }
  }

  /** Every state of every run, from any memory contents, satisfies the invariant. */
  lemma {:induction false} RunInv(cfg: Config, run: seq<State>, i: nat)
    requires cfg.Valid() && Run(cfg, run) && i < |run|
    ensures Inv(cfg, run[i])
    decreases i
  {
    if i == 0 {
      InitialInv(cfg, run[0]);
    } else {
      RunInv(cfg, run, i - 1);
      assert StepAt(cfg, run, i - 1);
      StepKeepsInv(cfg, run[i - 1], run[i]);
    }
  }

  /** The signal a guest polls has not run past the awaited value. */
  ghost predicate NotPast(m: Mem, op: Op)
    requires |m.area| == AREA_WORDS && OpOk(op)
  {
    op.Await? && op.value < BOOT_MAGIC ==> m.area[8 * op.line] <= op.value
  }

  /** A guest that saw the awaited value finds, with that value still in place, the
      checksum that was published with it. */
  ghost predicate Untorn(cfg: Config, m: Mem, op: Op, p: Guest)
    requires |m.area| == AREA_WORDS && OpOk(op)
  {
    op.Await? && p.micro == 1 ==>
      m.area[8 * op.line] == op.value && m.area[8 * op.line + 1] == cfg.Check(op.line, op.value)
  }

  lemma ReaderSignals(cfg: Config, s: State)
    requires cfg.Valid() && Inv(cfg, s)
    ensures NotPast(s.mem, ReaderOp(s.reader)) && Untorn(cfg, s.mem, ReaderOp(s.reader), s.reader)
  {
  }

  lemma WriterSignals(cfg: Config, s: State)
    requires cfg.Valid() && Inv(cfg, s)
    ensures NotPast(s.mem, WriterOp(s.writer)) && Untorn(cfg, s.mem, WriterOp(s.writer), s.writer)
  {
  }

  /** Signal safety: no run from any memory contents reaches a protocol error, and no
      wait ever pairs a value with the checksum of another generation. */
  lemma SignalsAreSafe(cfg: Config, run: seq<State>, i: nat)
    requires cfg.Valid() && Run(cfg, run) && i < |run|
    ensures !run[i].reader.fatal && !run[i].writer.fatal
    ensures |run[i].mem.area| == AREA_WORDS
    ensures OpOk(ReaderOp(run[i].reader)) && OpOk(WriterOp(run[i].writer))
    ensures NotPast(run[i].mem, ReaderOp(run[i].reader)) && NotPast(run[i].mem, WriterOp(run[i].writer))
    ensures Untorn(cfg, run[i].mem, ReaderOp(run[i].reader), run[i].reader)
    ensures Untorn(cfg, run[i].mem, WriterOp(run[i].writer), run[i].writer)
  {
    RunInv(cfg, run, i);
    ReaderSignals(cfg, run[i]);
    WriterSignals(cfg, run[i]);
  }

  /** One guest stores to an area while the other guest is reading it. */
  ghost predicate Conflict(a: Op, b: Op) {
    || (a.WritePayload? && (b.VerifyPayload? || b.WritePayload?))
    || (a.WriteStream? && (b.VerifyStream? || b.WriteStream?))
  }

  /** Exclusive ownership: the payload line and the stream are never written by one
      guest while the other is verifying or writing them. */
  lemma ExclusiveData(cfg: Config, run: seq<State>, i: nat)
    requires cfg.Valid() && Run(cfg, run) && i < |run|
    ensures !Conflict(ReaderOp(run[i].reader), WriterOp(run[i].writer))
    ensures !Conflict(WriterOp(run[i].writer), ReaderOp(run[i].reader))
  {
    RunInv(cfg, run, i);
  }

  /** Both roles have finished. */
  ghost predicate Finished(s: State) {
    s.reader.at == 20 && s.writer.at == 19
  }

  /** End to end: neither role ever counts an error, and once both are past the litmus
      test their payload checksums agree, as the host requires. */
  lemma EndToEnd(cfg: Config, run: seq<State>, i: nat)
    requires cfg.Valid() && Run(cfg, run) && i < |run|
    ensures run[i].reader.errors == 0 && run[i].writer.errors == 0
    ensures run[i].reader.at > 8 ==>
              run[i].writer.at > 6 && run[i].reader.sum == run[i].writer.sum == cfg.SumTo(1, 8)
  {
    RunInv(cfg, run, i);
  }

  // --- No deadlock -----------------------------------------------------------------

  /** Accesses that the calls after the reader's current one still make. */
  function ReaderAfter(cfg: Config, r: Guest): int {
    var rest := 14 + 2 * cfg.words;
    if r.at <= 2 then rest + 4 * cfg.iterations + (if r.at == 0 then 34 else if r.at == 1 then 26 else 24)
    else if r.at <= 8 then
      rest + 4 * cfg.iterations
      + (if r.at == 3 then 22 else if r.at == 4 then 20 else if r.at == 5 then 12 else if r.at == 6 then 10
         else if r.at == 7 then 8 else 0)
    else if r.at <= 10 then rest + 4 * (cfg.iterations - r.k) + 2 * (10 - r.at)
    else if r.at == 11 then 12 + 2 * cfg.words
    else if r.at == 12 then 12 + cfg.words
    else if r.at == 13 then 10 + cfg.words
    else 2 * (19 - r.at)
  }

  function WriterAfter(cfg: Config, w: Guest): int {
    var rest := 14 + 2 * cfg.words;
    if w.at <= 3 then rest + 4 * cfg.iterations + (if w.at == 0 then 26 else if w.at == 1 then 24 else if w.at == 2 then 22 else 14)
    else if w.at <= 7 then
      rest + 4 * cfg.iterations + (if w.at == 4 then 12 else if w.at == 5 then 10 else if w.at == 6 then 2 else 0)
    else if w.at <= 9 then rest + 4 * (cfg.iterations - w.k) + 2 * (9 - w.at)
    else if w.at <= 13 then cfg.words + 2 * (17 - w.at)
    else 2 * (18 - w.at)
  }

  function ReaderLeft(cfg: Config, r: Guest): int {
    if r.at >= 20 then 0 else ReaderAfter(cfg, r) + Length(cfg, ReaderOp(r)) - r.micro
  }

  function WriterLeft(cfg: Config, w: Guest): int {
    if w.at >= 19 then 0 else WriterAfter(cfg, w) + Length(cfg, WriterOp(w)) - w.micro
  }

  ghost predicate ReaderStuck(s: State)
    requires |s.mem.area| == AREA_WORDS && OpOk(ReaderOp(s.reader))
  {
    s.reader.at == 20 || Polls(ReaderOp(s.reader), s.mem, s.reader)
  }

  ghost predicate WriterStuck(s: State)
    requires |s.mem.area| == AREA_WORDS && OpOk(WriterOp(s.writer))
  {
    s.writer.at == 19 || (s.writer.at == 0 && s.reader.at < 4) || Polls(WriterOp(s.writer), s.mem, s.writer)
  }

  lemma ReaderAdvances(cfg: Config, r: Guest)
    requires cfg.Valid() && GuestOk(cfg, ReaderOp(r), r) && r.at < 20
    ensures r.micro + 1 < Length(cfg, ReaderOp(r)) ==> ReaderLeft(cfg, r.(micro := r.micro + 1)) == ReaderLeft(cfg, r) - 1
    ensures r.micro + 1 >= Length(cfg, ReaderOp(r)) ==> ReaderLeft(cfg, ReaderNext(cfg, r)) == ReaderLeft(cfg, r) - 1
  {
  }

  lemma ReaderCloser(cfg: Config, s: State)
    requires cfg.Valid() && Wellformed(cfg, s) && !s.reader.fatal && !ReaderStuck(s)
    ensures ReaderLeft(cfg, ReaderStep(cfg, s).reader) == ReaderLeft(cfg, s.reader) - 1
  {
    var op := ReaderOp(s.reader);
    LocalStays(cfg, op, s.mem, s.reader);
    var r := Local(cfg, op, s.mem, s.reader);
    assert ReaderOp(r) == op;
    ReaderAdvances(cfg, r);
  }

  lemma WriterAdvances(cfg: Config, w: Guest)
    requires cfg.Valid() && GuestOk(cfg, WriterOp(w), w) && w.at < 19
    ensures w.micro + 1 < Length(cfg, WriterOp(w)) ==> WriterLeft(cfg, w.(micro := w.micro + 1)) == WriterLeft(cfg, w) - 1
    ensures w.micro + 1 >= Length(cfg, WriterOp(w)) ==> WriterLeft(cfg, WriterNext(cfg, w)) == WriterLeft(cfg, w) - 1
  {
  }

  lemma LocalStays(cfg: Config, op: Op, m: Mem, p: Guest)
    requires Shaped(cfg, m) && OpOk(op) && 0 <= p.micro < Length(cfg, op)
    ensures var q := Local(cfg, op, m, p); q.at == p.at && q.k == p.k && q.micro == p.micro
  {
  }

  lemma WriterCloser(cfg: Config, s: State)
    requires cfg.Valid() && Wellformed(cfg, s) && !s.writer.fatal && s.writer.at <= 19 && !WriterStuck(s)
    ensures WriterLeft(cfg, WriterStep(cfg, s).writer) == WriterLeft(cfg, s.writer) - 1
  {
    var op := WriterOp(s.writer);
    LocalStays(cfg, op, s.mem, s.writer);
    var w := Local(cfg, op, s.mem, s.writer);
    assert WriterOp(w) == op;
    WriterAdvances(cfg, w);
  }

  lemma NotBothStuck(cfg: Config, s: State)
    requires cfg.Valid() && Inv(cfg, s) && !Finished(s)
    ensures !ReaderStuck(s) || !WriterStuck(s)
  {
  }

  function Left(cfg: Config, s: State): int {
    ReaderLeft(cfg, s.reader) + WriterLeft(cfg, s.writer)
  }

  lemma LeftIsNat(cfg: Config, s: State)
    requires cfg.Valid() && Wellformed(cfg, s)
    ensures Left(cfg, s) >= 0
  {
  }

  // --- The two guests as a system of processes -------------------------------------

  /** One access of the reader (0) or of the writer (1). */
  ghost function Move(cfg: Config, s: State, p: nat): State {
    if !Wellformed(cfg, s) then s
    else if p == 0 then ReaderStep(cfg, s)
    else WriterStep(cfg, s)
  }

  ghost function Helper(cfg: Config, s: State): nat {
    if Wellformed(cfg, s) && ReaderStuck(s) then 1 else 0
  }

  ghost function Guests(cfg: Config): System<State>
    requires cfg.Valid()
  {
    System(2, (s, p) => Move(cfg, s, p), s => Inv(cfg, s), s => Finished(s), s => Left(cfg, s), s => Helper(cfg, s))
  }

  /** A guest that is done, not launched or polls in vain changes nothing. */
  lemma StuckReaderStays(cfg: Config, s: State)
    requires cfg.Valid() && Inv(cfg, s) && ReaderStuck(s)
    ensures ReaderStep(cfg, s) == s
  {
    ReaderSignals(cfg, s);
  }

  lemma StuckWriterStays(cfg: Config, s: State)
    requires cfg.Valid() && Inv(cfg, s) && WriterStuck(s)
    ensures WriterStep(cfg, s) == s
  {
    WriterSignals(cfg, s);
  }

  lemma ReaderObeys(cfg: Config, s: State)
    requires cfg.Valid() && Inv(cfg, s)
    ensures Settles(Guests(cfg), s, 0)
  {
    StepKeepsInv(cfg, s, ReaderStep(cfg, s));
    if ReaderStuck(s) {
      StuckReaderStays(cfg, s);
    } else {
      ReaderCloser(cfg, s);
    }
  }

  lemma WriterObeys(cfg: Config, s: State)
    requires cfg.Valid() && Inv(cfg, s)
    ensures Settles(Guests(cfg), s, 1)
  {
    StepKeepsInv(cfg, s, WriterStep(cfg, s));
    if WriterStuck(s) {
      StuckWriterStays(cfg, s);
      if !Finished(s) {
        NotBothStuck(cfg, s);
      }
    } else {
      WriterCloser(cfg, s);
    }
  }

  lemma GuestsAreLawful(cfg: Config)
    requires cfg.Valid()
    ensures Lawful(Guests(cfg))
  {
    forall s: State, p: nat | Inv(cfg, s) && p < 2
      ensures Settles(Guests(cfg), s, p)
    {
      if p == 0 {
        ReaderObeys(cfg, s);
      } else {
        WriterObeys(cfg, s);
      }
    }
    forall s: State | Inv(cfg, s)
      ensures Ranked(Guests(cfg), s)
    {
      LeftIsNat(cfg, s);
    }
  }

  lemma MovesArePath(cfg: Config, path: seq<State>)
    requires cfg.Valid() && Chain(Steps(Guests(cfg)), path) && Inv(cfg, path[0])
    ensures Path(cfg, path)
  {
    GuestsAreLawful(cfg);
    forall i | 0 <= i < |path| - 1
      ensures StepAt(cfg, path, i)
    {
      ChainKeepsInv(Guests(cfg), path, i);
      assert Linked(Steps(Guests(cfg)), path, i);
      var p: nat :| p < 2 && path[i + 1] == Guests(cfg).move(path[i], p);
    }
  }

  lemma PathIsChain(cfg: Config, path: seq<State>)
    requires cfg.Valid() && Path(cfg, path)
    ensures Chain(Steps(Guests(cfg)), path)
  {
    var y := Guests(cfg);
    forall i | 0 <= i < |path| - 1
      ensures Linked(Steps(y), path, i)
    {
      assert StepAt(cfg, path, i);
      assert y.move(path[i], 0) == ReaderStep(cfg, path[i]) && y.move(path[i], 1) == WriterStep(cfg, path[i]);
    }
  }

  /** Every run can be continued, in at most `Left` accesses, to one in which both roles
      have finished. */
  lemma EveryRunCanFinish(cfg: Config, run: seq<State>) returns (whole: seq<State>)
    requires cfg.Valid() && Run(cfg, run)
    ensures Run(cfg, whole) && run <= whole && Finished(whole[|whole| - 1])
    ensures |whole| <= |run| + Left(cfg, run[|run| - 1])
  {
    RunInv(cfg, run, 0);
    RunInv(cfg, run, |run| - 1);
    GuestsAreLawful(cfg);
    var path := CanFinish(Guests(cfg), run[|run| - 1]);
    PathIsChain(cfg, run);
    ChainsJoin(Steps(Guests(cfg)), run, path);
    whole := run + path[1..];
    MovesArePath(cfg, whole);
  }

  /** However the rest of a run is scheduled, after `Left` rounds in each of which both
      guests step, both roles have finished. */
  lemma DoneInTime(cfg: Config, run: seq<State>, who: Schedule, cut: nat -> nat)
    requires cfg.Valid() && Run(cfg, run)
    requires Names(Guests(cfg), who) && Divides(Guests(cfg), who, cut)
    ensures Left(cfg, run[|run| - 1]) >= 0
    ensures Finished(At(Guests(cfg), run[|run| - 1], who, cut(Left(cfg, run[|run| - 1]))))
  {
    var s := run[|run| - 1];
    RunInv(cfg, run, |run| - 1);
    LeftIsNat(cfg, s);
    GuestsAreLawful(cfg);
    DoneAfterRounds(Guests(cfg), s, who, cut, Left(cfg, s));
  }

  /** No livelock: every continuation of a run in which both guests step again and again
      comes to the end of both roles, and stays there. */
  lemma FairRunsFinish(cfg: Config, run: seq<State>, who: Schedule) returns (end: nat)
    requires cfg.Valid() && Run(cfg, run) && Names(Guests(cfg), who) && Fair(Guests(cfg), who)
    ensures EndsBy(Guests(cfg), run[|run| - 1], who, end)
  {
    RunInv(cfg, run, |run| - 1);
    GuestsAreLawful(cfg);
    end := FairFinishes(Guests(cfg), run[|run| - 1], who);
  }

  // --- How many accesses a run makes -----------------------------------------------

  /** Accesses of the reader in the first `n` steps, failed polls left out. */
  ghost function ReaderAccesses(run: seq<State>, n: nat): nat
    requires n < |run|
  {
    if n == 0 then 0 else ReaderAccesses(run, n - 1) + if run[n].reader != run[n - 1].reader then 1 else 0
  }

  ghost function WriterAccesses(run: seq<State>, n: nat): nat
    requires n < |run|
  {
    if n == 0 then 0 else WriterAccesses(run, n - 1) + if run[n].writer != run[n - 1].writer then 1 else 0
  }

  lemma StepAccesses(cfg: Config, s: State, t: State)
    requires cfg.Valid() && Inv(cfg, s) && Step(cfg, s, t)
    ensures ReaderLeft(cfg, s.reader) - ReaderLeft(cfg, t.reader) == if t.reader != s.reader then 1 else 0
    ensures WriterLeft(cfg, s.writer) - WriterLeft(cfg, t.writer) == if t.writer != s.writer then 1 else 0
  {
    if t == ReaderStep(cfg, s) {
      if ReaderStuck(s) {
        StuckReaderStays(cfg, s);
      } else {
        ReaderCloser(cfg, s);
      }
    } else {
      if WriterStuck(s) {
        StuckWriterStays(cfg, s);
      } else {
        WriterCloser(cfg, s);
      }
    }
  }

  lemma {:induction false} AccessesSoFar(cfg: Config, run: seq<State>, n: nat)
    requires cfg.Valid() && Run(cfg, run) && n < |run|
    ensures ReaderAccesses(run, n) == ReaderLeft(cfg, run[0].reader) - ReaderLeft(cfg, run[n].reader)
    ensures WriterAccesses(run, n) == WriterLeft(cfg, run[0].writer) - WriterLeft(cfg, run[n].writer)
  {
    if n > 0 {
      AccessesSoFar(cfg, run, n - 1);
      RunInv(cfg, run, n - 1);
      assert StepAt(cfg, run, n - 1);
      StepAccesses(cfg, run[n - 1], run[n]);
    }
  }

  /** Every complete run makes exactly as many accesses as the program has, waits counted
      once: the reader clears 88 words, and both make four accesses in every round and two
      for every stream word. */
  lemma AccessesInAll(cfg: Config, run: seq<State>, n: nat)
    requires cfg.Valid() && Run(cfg, run) && n < |run| && Finished(run[n])
    ensures ReaderAccesses(run, n) == 136 + 4 * cfg.iterations + 2 * cfg.words
    ensures WriterAccesses(run, n) == 41 + 4 * cfg.iterations + 2 * cfg.words
  {
    AccessesSoFar(cfg, run, n);
  }
}
