/** The verdict of the probe is not always PASS: a schedule in which a reader accepts a
    multiple of 2^64 snapshots brings its 64-bit counter back to zero, and the server
    takes that for a reader that accepted none. */
module ProbeWrap {
  import opened ProbeModel
  import opened ProbeInvariant
  import opened ProbeTheorems
  import opened ProbeProgress

  ghost predicate Connects(cfg: Config, path: seq<State>, s: State, t: State) {
    Path(cfg, path) && path[0] == s && path[|path| - 1] == t
  }

  ghost predicate Reach(cfg: Config, s: State, t: State) {
    exists path :: Connects(cfg, path, s, t)
  }

  lemma ReachSelf(cfg: Config, s: State)
    ensures Reach(cfg, s, s)
  {
    assert Connects(cfg, [s], s, s);
  }

  lemma ReachStep(cfg: Config, s: State, t: State, u: State)
    requires Step(cfg, s, t) && Reach(cfg, t, u)
    ensures Reach(cfg, s, u)
  {
    var path :| Connects(cfg, path, t, u);
    assert [s] + path == [s, t] + path[1..] && StepAt(cfg, [s, t], 0);
    PathsJoin(cfg, [s, t], path);
    assert Connects(cfg, [s] + path, s, u);
  }

  lemma ReachTrans(cfg: Config, s: State, t: State, u: State)
    requires Reach(cfg, s, t) && Reach(cfg, t, u)
    ensures Reach(cfg, s, u)
  {
    var a :| Connects(cfg, a, s, t);
    var b :| Connects(cfg, b, t, u);
    var whole := a + b[1..];
    PathsJoin(cfg, a, b);
    assert Connects(cfg, whole, s, u);
  }

  // --- Up to the first update of the seqlock ---------------------------------------

  lemma StepBeforeWriting(cfg: Config, s: State, t: State)
    requires cfg.Valid() && Step(cfg, s, t) && s.server.at < 24
    ensures t.server.at <= 24
  {
  }

  lemma {:induction false} ReachWriter(cfg: Config, s: State) returns (t: State)
    requires cfg.Valid() && Inv(cfg, s) && s.server.at <= 24
    ensures Reach(cfg, s, t) && Inv(cfg, t) && t.server.at == 24
    decreases Left(cfg, s)
  {
    LeftIsNat(cfg, s);
    if s.server.at == 24 {
      t := s;
      ReachSelf(cfg, s);
    } else {
      var u := SomeoneMoves(cfg, s);
      LeftIsNat(cfg, u);
      StepBeforeWriting(cfg, s, u);
      t := ReachWriter(cfg, u);
      ReachStep(cfg, s, u, t);
    }
  }

  // --- Reader 0 runs alone while the snapshot is at rest ---------------------------

  /** The snapshot holds an even sequence word and reader 0 is in its loop. */
  ghost predicate AtRest(cfg: Config, s: State) {
    && Inv(cfg, s) && s.control.snapSeq % 2 == 0
    && (s.server.at == 24 || s.server.at == 28)
    && 21 <= s.clients[0].at <= 25
  }

  /** Accepted snapshots when the current attempt, if any, is over. */
  function Coming(s: State): int
    requires |s.clients| == 2
  {
    var p := s.clients[0];
    |p.log| + (if p.at == 23 || (24 <= p.at <= 25 && p.first == s.control.snapSeq) then 1 else 0)
  }

  lemma ReaderStep(cfg: Config, s: State)
    requires cfg.Valid() && AtRest(cfg, s) && s.clients[0].at != 22
    ensures var t := ClientMove(cfg, 0, s);
            && t.server == s.server && t.control == s.control && Coming(t) == Coming(s)
            && (if t.clients[0].at == 26 then s.clients[0].last else t.clients[0].last == s.clients[0].last)
            && (if s.clients[0].at == 21 || s.clients[0].at == 25
                then t.clients[0].at == (if s.clients[0].at == 25 && s.clients[0].last then 26 else 22)
                else 24 <= t.clients[0].at <= 25 && AttemptLeft(t.clients[0]) < AttemptLeft(s.clients[0]))
  {
  }

  /** The reader finishes its attempt. */
  lemma {:induction false} ReachHead(cfg: Config, s: State) returns (t: State)
    requires cfg.Valid() && AtRest(cfg, s)
    ensures Reach(cfg, s, t) && Inv(cfg, t) && t.server == s.server && t.control == s.control
    ensures |t.clients[0].log| == Coming(s)
    ensures t.clients[0].at == if s.clients[0].at >= 23 && s.clients[0].last then 26 else 22
    decreases if s.clients[0].at == 22 then 0 else if s.clients[0].at == 21 then 1 else AttemptLeft(s.clients[0])
  {
    if s.clients[0].at == 22 {
      t := s;
      ReachSelf(cfg, s);
    } else {
      var u := ClientMove(cfg, 0, s);
      ReaderStep(cfg, s);
      StepKeepsInv(cfg, s, u);
      if u.clients[0].at == 26 {
        t := u;
        ReachSelf(cfg, u);
      } else {
        t := ReachHead(cfg, u);
      }
      ReachStep(cfg, s, u, t);
    }
  }

  /** One whole turn of the reader's loop. */
  lemma PollOnce(cfg: Config, s: State) returns (t: State)
    requires cfg.Valid() && AtRest(cfg, s) && s.clients[0].at == 22
    ensures Reach(cfg, s, t) && Inv(cfg, t) && t.server == s.server && t.control == s.control
    ensures |t.clients[0].log| == |s.clients[0].log| + 1
    ensures t.clients[0].at == if s.server.at == 28 then 26 else 22
  {
    var u := ClientMove(cfg, 0, s);
    StepKeepsInv(cfg, s, u);
    t := ReachHead(cfg, u);
    ReachStep(cfg, s, u, t);
  }

  lemma {:induction false} PollMany(cfg: Config, s: State, n: nat) returns (t: State)
    requires cfg.Valid() && AtRest(cfg, s) && s.clients[0].at == 22 && s.server.at == 24
    ensures Reach(cfg, s, t) && Inv(cfg, t) && t.server.at == 24
    ensures t.clients[0].at == 22 && |t.clients[0].log| == |s.clients[0].log| + n
    decreases n
  {
    if n == 0 {
      t := s;
      ReachSelf(cfg, s);
    } else {
      var u := PollOnce(cfg, s);
      t := PollMany(cfg, u, n - 1);
      ReachTrans(cfg, s, u, t);
    }
  }

  // --- The writer runs alone to its end --------------------------------------------

  lemma {:induction false} WriteAll(cfg: Config, s: State) returns (t: State)
    requires cfg.Valid() && Inv(cfg, s) && 24 <= s.server.at <= 27
    ensures Reach(cfg, s, t) && Inv(cfg, t) && t.server.at == 28 && t.clients == s.clients
    decreases WriterLeft(cfg, s.server)
  {
    var d := Focus(s.server);
    WriterNeverWaits(cfg, s.server, s.control, s.lanes[d], ServerStep(cfg, s.server, s.control, s.lanes[d]));
    var u := ServerMove(cfg, s);
    StepKeepsInv(cfg, s, u);
    if s.server.at == 27 {
      t := u;
      ReachSelf(cfg, u);
    } else {
      t := WriteAll(cfg, u);
    }
    ReachStep(cfg, s, u, t);
  }

  // --- After the reader's loop its log stays ---------------------------------------

  lemma {:induction false} LogStays(cfg: Config, path: seq<State>, i: nat)
    requires cfg.Valid() && Path(cfg, path) && i < |path|
    requires Wellformed(cfg, path[0]) && path[0].clients[0].at > 25
    ensures |path[i].clients| == 2 && path[i].clients[0].at > 25 && path[i].clients[0].log == path[0].clients[0].log
    decreases i
  {
    if i > 0 {
      LogStays(cfg, path, i - 1);
      var s := path[i - 1];
      assert StepAt(cfg, path, i - 1);
      LogGrowsSlowly(cfg, 0, s.control, s.lanes[0], s.clients[0]);
      AfterLoop(cfg, s.control, s.lanes[0], s.clients[0]);
    }
  }

  lemma AfterLoop(cfg: Config, ctl: Control, mem: Lane, p: Client)
    requires ClientPcOk(cfg, p) && |ctl.snapWord| == SNAPSHOT_WORDS && |mem.payload| == cfg.words && p.at > 25
    ensures ClientStep(cfg, 0, ctl, mem, p).proc.at > 25
  {
  }

  lemma ToHead(cfg: Config, s: State) returns (t: State)
    requires cfg.Valid() && Inv(cfg, s) && s.server.at <= 24
    ensures Reach(cfg, s, t) && Inv(cfg, t) && t.server.at == 24 && t.clients[0].at == 22
  {
    var s1 := ReachWriter(cfg, s);
    t := ReachHead(cfg, s1);
    ReachTrans(cfg, s, s1, t);
  }

  /** A reader can be made to accept any number of snapshots modulo 2^64, here zero. */
  lemma WrapFromHead(cfg: Config, s: State) returns (t: State)
    requires cfg.Valid() && Inv(cfg, s) && s.server.at == 24 && s.clients[0].at == 22
    ensures Reach(cfg, s, t) && Inv(cfg, t) && t.clients[0].at == 26 && Wrapped(t.clients[0])
  {
    var s1 := PollMany(cfg, s, TWO64 - 1 - |s.clients[0].log| % TWO64);
    NextMultiple(|s.clients[0].log|);
    t := ReachLastPoll(cfg, s1);
    ReachTrans(cfg, s, s1, t);
  }

  lemma ReachWrapped(cfg: Config, s: State) returns (t: State)
    requires cfg.Valid() && Inv(cfg, s) && s.server.at <= 24
    ensures Reach(cfg, s, t) && Inv(cfg, t) && t.clients[0].at == 26 && Wrapped(t.clients[0])
  {
    var s1 := ToHead(cfg, s);
    t := WrapFromHead(cfg, s1);
    ReachTrans(cfg, s, s1, t);
  }

  lemma ReachLastPoll(cfg: Config, s: State) returns (t: State)
    requires cfg.Valid() && Inv(cfg, s) && s.server.at == 24 && s.clients[0].at == 22
    ensures Reach(cfg, s, t) && Inv(cfg, t) && t.clients[0].at == 26
    ensures |t.clients[0].log| == |s.clients[0].log| + 1
  {
    var u := WriteAll(cfg, s);
    t := PollOnce(cfg, u);
    ReachTrans(cfg, s, u, t);
  }

  lemma FinishWrapped(cfg: Config, s: State) returns (t: State)
    requires cfg.Valid() && Inv(cfg, s) && s.clients[0].at == 26 && Wrapped(s.clients[0])
    ensures Reach(cfg, s, t) && Finished(t) && Wrapped(t.clients[0])
  {
    var tail := ProbeCanFinish(cfg, s);
    LogStays(cfg, tail, |tail| - 1);
    t := tail[|tail| - 1];
    assert Connects(cfg, tail, s, t);
  }

  lemma FinishWrappedFrom(cfg: Config, s: State) returns (path: seq<State>)
    requires cfg.Valid() && Inv(cfg, s) && s.server.at <= 24
    ensures Path(cfg, path) && path[0] == s && Finished(path[|path| - 1]) && Wrapped(path[|path| - 1].clients[0])
  {
    var t := ReachWrapped(cfg, s);
    var u := FinishWrapped(cfg, t);
    ReachTrans(cfg, s, t, u);
    path :| Connects(cfg, path, s, u);
  }

  /** Every path from `s` is a run. */
  ghost predicate Starts(cfg: Config, s: State)
    requires cfg.Valid()
  {
    forall path :: Path(cfg, path) && path[0] == s ==> Run(cfg, path)
  }

  lemma Beginning(cfg: Config) returns (s: State)
    requires cfg.Valid()
    ensures Starts(cfg, s) && Inv(cfg, s) && s.server.at == 0
  {
    s := Initial(cfg);
    InitialInv(cfg);
  }

  lemma WrappedRun(cfg: Config) returns (run: seq<State>)
    requires cfg.Valid()
    ensures Run(cfg, run) && Finished(run[|run| - 1]) && Wrapped(run[|run| - 1].clients[0])
  {
    var s := Beginning(cfg);
    run := FinishWrappedFrom(cfg, s);
  }

  /** For every configuration there is a run in which all processes finish and no data
      was ever wrong, yet the server reports an error. */
  lemma SomeCompleteRunFails(cfg: Config) returns (run: seq<State>)
    requires cfg.Valid()
    ensures Run(cfg, run) && Finished(run[|run| - 1])
    ensures run[|run| - 1].server.errors > 0
  {
    run := WrappedRun(cfg);
    WrappedRunFails(cfg, run);
  }

  /** And it does so exactly when the count of one of the clients wrapped. */
  lemma WrappedRunFails(cfg: Config, run: seq<State>)
    requires cfg.Valid() && Run(cfg, run) && Finished(run[|run| - 1])
    ensures run[|run| - 1].server.errors > 0 <==>
              Wrapped(run[|run| - 1].clients[0]) || Wrapped(run[|run| - 1].clients[1])
  {
    CompleteRun(cfg, run);
  }

  lemma NextMultiple(x: nat)
    ensures (x + (TWO64 - 1 - x % TWO64) + 1) % TWO64 == 0
  {
    assert x == x / TWO64 * TWO64 + x % TWO64;
    assert x + (TWO64 - 1 - x % TWO64) + 1 == (x / TWO64 + 1) * TWO64;
  }
}
