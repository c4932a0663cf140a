/** What the guests' verdict is worth when memory is not coherent.

    In a faulty run every access may find anything at all in shared memory.  Errors are
    counted exactly, a guest stops exactly when it polls a value past the awaited one, and
    a guest that ends without errors has made every check of its program, each with the
    right outcome. */
module SignalDetection {
  import opened SignalModel

  function Under(s: State, m: Mem): State {
    State(m, s.reader, s.writer)
  }

  ghost predicate FaultyStep(cfg: Config, states: seq<State>, seen: seq<Mem>, i: int)
    requires |states| == |seen| + 1 && 0 <= i < |seen|
  {
    Step(cfg, Under(states[i], seen[i]), states[i + 1])
  }

  ghost predicate FaultyRun(cfg: Config, states: seq<State>, seen: seq<Mem>) {
    && |states| == |seen| + 1
    && states[0].reader == states[0].writer == Guest(0, 0, 0, 0, 0, false)
    && forall i :: 0 <= i < |seen| ==> FaultyStep(cfg, states, seen, i)
  }

  // --- Either guest ----------------------------------------------------------------

  function GuestOf(s: State, reader: bool): Guest {
    if reader then s.reader else s.writer
  }

  function OpOf(reader: bool, p: Guest): Op {
    if reader then ReaderOp(p) else WriterOp(p)
  }

  ghost function StepOf(cfg: Config, s: State, reader: bool): State
    requires Wellformed(cfg, s)
  {
    if reader then ReaderStep(cfg, s) else WriterStep(cfg, s)
  }

  /** The tags in the order of the lines; the payload has none. */
  const TAGS: seq<int> := [0x10, 0x20, 0x30, 0x40, 0x50, 0, 0x60, 0x70, 0x80, 0x90, 0xa0]

  /** What the guest finds is not what it should be. */
  ghost predicate Finds(cfg: Config, op: Op, m: Mem, micro: int)
    requires Shaped(cfg, m) && OpOk(op) && (op.Done? || 0 <= micro < Length(cfg, op))
  {
    || (op.VerifyPayload? && m.area[40 + micro] != cfg.mix.payloadValue(op.generation, micro))
    || (op.VerifyStream? && m.stream[micro] != cfg.mix.streamValue(op.generation, micro))
    || (op.Await? && micro == 1 && m.area[8 * op.line + 1] != cfg.mix.signalChecksum(op.value, TAGS[op.line]))
  }

  /** The guest polls a signal that is past the awaited value. */
  ghost predicate PollsPast(cfg: Config, op: Op, m: Mem, micro: int)
    requires Shaped(cfg, m) && OpOk(op)
  {
    op.Await? && micro == 0 && m.area[8 * op.line] > op.value && op.value < 0x43584c4249415050
  }

  lemma LocalCounts(cfg: Config, op: Op, m: Mem, p: Guest)
    requires Shaped(cfg, m) && OpOk(op) && 0 <= p.micro < Length(cfg, op) && !p.fatal
    ensures var q := Local(cfg, op, m, p);
            && q.errors == p.errors + (if Finds(cfg, op, m, p.micro) then 1 else 0)
            && (q.fatal <==> PollsPast(cfg, op, m, p.micro))
            && q.at == p.at && q.k == p.k && q.micro == p.micro
  {
  }

  /** The guest makes the access; it has not ended, stopped or still to be launched. */
  ghost predicate Acts(s: State, reader: bool) {
    var p, op := GuestOf(s, reader), OpOf(reader, GuestOf(s, reader));
    !op.Done? && !p.fatal && (op.Launch? ==> s.reader.at >= 4)
  }

  lemma StepCounts(cfg: Config, s: State, reader: bool)
    requires cfg.Valid() && Wellformed(cfg, s)
    ensures var p, q := GuestOf(s, reader), GuestOf(StepOf(cfg, s, reader), reader);
            if Acts(s, reader) then
              && q.errors == p.errors + (if Finds(cfg, OpOf(reader, p), s.mem, p.micro) then 1 else 0)
              && (q.fatal <==> PollsPast(cfg, OpOf(reader, p), s.mem, p.micro))
            else q == p
    ensures GuestOf(StepOf(cfg, s, reader), !reader) == GuestOf(s, !reader)
  {
    var p := GuestOf(s, reader);
    if Acts(s, reader) {
      LocalCounts(cfg, OpOf(reader, p), s.mem, p);
    }
  }

  // --- Points of the program -------------------------------------------------------

  /** The first call of the ping-pong loop. */
  function LoopStart(reader: bool): int {
    if reader then 9 else 8
  }

  predicate InLoop(reader: bool, at: int) {
    LoopStart(reader) <= at <= LoopStart(reader) + 1
  }

  /** The guest stands at access `micro` of the call `at`, in round `k` of the loop. */
  predicate StandsAt(reader: bool, p: Guest, at: int, k: int, micro: int) {
    p.at == at && p.micro == micro && (InLoop(reader, at) ==> p.k == k)
  }

  predicate Beyond(p: Guest, at: int, micro: int) {
    p.at > at || (p.at == at && p.micro > micro)
  }

  predicate Past(reader: bool, p: Guest, at: int, k: int, micro: int) {
    if InLoop(reader, at) then
      p.at > LoopStart(reader) + 1 || (LoopStart(reader) <= p.at && (p.k > k || (p.k == k && Beyond(p, at, micro))))
    else Beyond(p, at, micro)
  }

  /** The point exists: the call, its access, and the round when the call is in the loop. */
  ghost predicate IsPoint(cfg: Config, reader: bool, at: int, k: int, micro: int) {
    && 0 <= at < (if reader then 20 else 19) && (InLoop(reader, at) ==> 1 <= k <= cfg.iterations)
    && 0 <= micro < Length(cfg, OpOf(reader, Guest(at, k, 0, 0, 0, false)))
  }

  lemma NextCrosses(cfg: Config, reader: bool, p: Guest, q: Guest, at: int, k: int, micro: int)
    requires cfg.Valid() && GuestOk(cfg, OpOf(reader, p), p) && !OpOf(reader, p).Done? && IsPoint(cfg, reader, at, k, micro)
    requires q.at == p.at && q.k == p.k && q.micro == p.micro
    requires !Past(reader, p, at, k, micro)
    ensures var n := if q.micro + 1 < Length(cfg, OpOf(reader, p)) then q.(micro := q.micro + 1)
                     else if reader then ReaderNext(cfg, q) else WriterNext(cfg, q);
            n != p && (Past(reader, n, at, k, micro) ==> StandsAt(reader, p, at, k, micro))
  {
  }

  lemma StepCrosses(cfg: Config, s: State, reader: bool, at: int, k: int, micro: int)
    requires cfg.Valid() && Wellformed(cfg, s) && IsPoint(cfg, reader, at, k, micro)
    requires !Past(reader, GuestOf(s, reader), at, k, micro)
    requires Past(reader, GuestOf(StepOf(cfg, s, reader), reader), at, k, micro)
    ensures Acts(s, reader) && StandsAt(reader, GuestOf(s, reader), at, k, micro)
    ensures !Polls(OpOf(reader, GuestOf(s, reader)), s.mem, GuestOf(s, reader))
  {
    var p := GuestOf(s, reader);
    if Acts(s, reader) {
      LocalCounts(cfg, OpOf(reader, p), s.mem, p);
      NextCrosses(cfg, reader, p, Local(cfg, OpOf(reader, p), s.mem, p), at, k, micro);
    }
  }

  // --- Errors are counted ----------------------------------------------------------

  ghost predicate FaultAt(cfg: Config, states: seq<State>, seen: seq<Mem>, reader: bool, i: int)
    requires |states| == |seen| + 1 && 0 <= i < |seen| && FaultyStep(cfg, states, seen, i)
  {
    var p := GuestOf(states[i], reader);
    GuestOf(states[i + 1], reader) != p && Finds(cfg, OpOf(reader, p), seen[i], p.micro)
  }

  /** Checks of the guest that failed in the first `n` steps. */
  ghost function Faults(cfg: Config, states: seq<State>, seen: seq<Mem>, reader: bool, n: nat): nat
    requires FaultyRun(cfg, states, seen) && n <= |seen|
  {
    if n == 0 then 0
    else Faults(cfg, states, seen, reader, n - 1)
         + (assert FaultyStep(cfg, states, seen, n - 1); if FaultAt(cfg, states, seen, reader, n - 1) then 1 else 0)
  }

  /** Which guest made a step, when the guest changed. */
  lemma WhoStepped(cfg: Config, s: State, t: State, reader: bool)
    requires cfg.Valid() && Step(cfg, s, t)
    ensures GuestOf(t, reader) == GuestOf(s, reader) || t == StepOf(cfg, s, reader)
    ensures t == StepOf(cfg, s, reader) || t == StepOf(cfg, s, !reader)
  {
    StepCounts(cfg, s, true);
    StepCounts(cfg, s, false);
  }

  lemma OneStepCounts(cfg: Config, s: State, t: State, reader: bool)
    requires cfg.Valid() && Step(cfg, s, t)
    ensures var p, q := GuestOf(s, reader), GuestOf(t, reader);
            && q.errors == p.errors + (if q != p && Finds(cfg, OpOf(reader, p), s.mem, p.micro) then 1 else 0)
            && (q.fatal && !p.fatal ==> PollsPast(cfg, OpOf(reader, p), s.mem, p.micro))
            && (p.fatal ==> q == p)
  {
    WhoStepped(cfg, s, t, reader);
    StepCounts(cfg, s, reader);
  }

  /** The error counter is the number of checks that failed. */
  lemma {:induction false} ErrorsAreFaults(cfg: Config, states: seq<State>, seen: seq<Mem>, reader: bool, n: nat)
    requires cfg.Valid() && FaultyRun(cfg, states, seen) && n <= |seen|
    ensures GuestOf(states[n], reader).errors == Faults(cfg, states, seen, reader, n)
  {
    if n > 0 {
      ErrorsAreFaults(cfg, states, seen, reader, n - 1);
      assert FaultyStep(cfg, states, seen, n - 1);
      OneStepCounts(cfg, Under(states[n - 1], seen[n - 1]), states[n], reader);
    }
  }

  /** A guest that stopped polled a signal past the awaited value. */
  lemma {:induction false} StoppedWhenPast(cfg: Config, states: seq<State>, seen: seq<Mem>, reader: bool, n: nat)
    returns (i: nat)
    requires cfg.Valid() && FaultyRun(cfg, states, seen) && n <= |seen| && GuestOf(states[n], reader).fatal
    ensures i < n && FaultyStep(cfg, states, seen, i)
    ensures PollsPast(cfg, OpOf(reader, GuestOf(states[i], reader)), seen[i], GuestOf(states[i], reader).micro)
  {
    assert n > 0;
    assert FaultyStep(cfg, states, seen, n - 1);
    OneStepCounts(cfg, Under(states[n - 1], seen[n - 1]), states[n], reader);
    if GuestOf(states[n - 1], reader).fatal {
      i := StoppedWhenPast(cfg, states, seen, reader, n - 1);
    } else {
      i := n - 1;
    }
  }

  lemma {:induction false} FaultsGrow(cfg: Config, states: seq<State>, seen: seq<Mem>, reader: bool, i: nat, n: nat)
    requires cfg.Valid() && FaultyRun(cfg, states, seen) && i < n <= |seen| && FaultyStep(cfg, states, seen, i)
    ensures FaultAt(cfg, states, seen, reader, i) ==> Faults(cfg, states, seen, reader, n) > 0
  {
    if i < n - 1 {
      FaultsGrow(cfg, states, seen, reader, i, n - 1);
    }
  }

  // --- A verdict without errors ----------------------------------------------------

  /** The guest has ended and counted no error. */
  ghost predicate Passes(cfg: Config, states: seq<State>, seen: seq<Mem>, reader: bool) {
    && FaultyRun(cfg, states, seen)
    && GuestOf(states[|seen|], reader).at == (if reader then 20 else 19) && GuestOf(states[|seen|], reader).errors == 0
  }

  lemma {:induction false} Crosses(states: seq<State>, reader: bool, past: Guest -> bool, n: nat) returns (i: nat)
    requires n < |states| && !past(GuestOf(states[0], reader)) && past(GuestOf(states[n], reader))
    ensures i < n && !past(GuestOf(states[i], reader)) && past(GuestOf(states[i + 1], reader))
  {
    if past(GuestOf(states[n - 1], reader)) {
      i := Crosses(states, reader, past, n - 1);
    } else {
      i := n - 1;
    }
  }

  /** Every access of the guest's program was made, and what it looked at was right: the
      payload and stream words that are verified, and of every signal that is awaited its
      value and then its checksum. */
  lemma EveryCheckPassed(cfg: Config, states: seq<State>, seen: seq<Mem>, reader: bool, at: int, k: int, micro: int)
    returns (i: nat)
    requires cfg.Valid() && Passes(cfg, states, seen, reader) && IsPoint(cfg, reader, at, k, micro)
    ensures i < |seen| && FaultyStep(cfg, states, seen, i) && StandsAt(reader, GuestOf(states[i], reader), at, k, micro)
    ensures var op := OpOf(reader, GuestOf(states[i], reader));
            && !Finds(cfg, op, seen[i], micro)
            && (op.Await? && micro == 0 ==> seen[i].area[8 * op.line] == op.value)
  {
    i := Crosses(states, reader, p => Past(reader, p, at, k, micro), |seen|);
    assert FaultyStep(cfg, states, seen, i);
    var s := Under(states[i], seen[i]);
    WhoStepped(cfg, s, states[i + 1], reader);
    StepCrosses(cfg, s, reader, at, k, micro);
    ErrorsAreFaults(cfg, states, seen, reader, |seen|);
    FaultsGrow(cfg, states, seen, reader, i, |seen|);
  }
}
