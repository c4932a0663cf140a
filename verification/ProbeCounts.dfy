/** How many accesses a run makes: the counts that bound progress are exact. */
module ProbeCounts {
  import opened ProbeModel
  import opened ProbeInvariant
  import opened ProbeSafety
  import opened ProbeTheorems
  import opened ProbeProgress

  // --- One step --------------------------------------------------------------------

  /** The packet that the server takes up is the one it waited for. */
  lemma PacketIsCurrent(cfg: Config, c: int, sv: Server, mem: Lane, p: Client)
    requires cfg.Valid() && 0 <= c < 2 && ServerPcOk(cfg, sv) && ClientPcOk(cfg, p) && sv.at == 5 && sv.who == c
    requires Causal(cfg, c, sv, p) && Packets(cfg, c, sv, mem, p)
    ensures mem.pktSeq == sv.k
  {
  }

  lemma ServerCounts(cfg: Config, s: State)
    requires cfg.Valid() && Inv(cfg, s)
    ensures var t := ServerMove(cfg, s);
            t == s || (t.server != s.server && ServerLeft(cfg, t.server) == ServerLeft(cfg, s.server) - 1)
    ensures s.server.at != 27 ==> ServerMove(cfg, s).control.seqlockStop == s.control.seqlockStop
  {
    var d := Focus(s.server);
    ServerAdvances(cfg, s.server, s.control, s.lanes[d], ServerStep(cfg, s.server, s.control, s.lanes[d]));
    if s.server.at == 5 {
      PacketIsCurrent(cfg, d, s.server, s.lanes[d], s.clients[d]);
    }
  }

  predicate InReadLoop(p: Client) {
    22 <= p.at <= 25
  }

  lemma ClientCounts(cfg: Config, c: int, s: State)
    requires cfg.Valid() && Inv(cfg, s) && 0 <= c < 2 && !InReadLoop(s.clients[c])
    ensures var p, q, stop := s.clients[c], ClientMove(cfg, c, s).clients[c], s.control.seqlockStop;
            q == p || ClientLeft(cfg, stop, q) == ClientLeft(cfg, stop, p) - 1
    ensures ClientMove(cfg, c, s).clients[c] == s.clients[c] ==> ClientMove(cfg, c, s) == s
  {
    ClientNeverGrows(cfg, s, c);
  }

  /** `Left` counts every access exactly: a step that is not a failed poll, an access of a
      reader's loop or the store that stops the readers leaves one access less. */
  lemma LeftIsExact(cfg: Config, s: State, t: State)
    requires cfg.Valid() && Inv(cfg, s) && Step(cfg, s, t) && t != s
    requires forall c :: 0 <= c < 2 && InReadLoop(s.clients[c]) ==> t.clients[c] == s.clients[c]
    requires t.control.seqlockStop == s.control.seqlockStop
    ensures Left(cfg, t) == Left(cfg, s) - 1
  {
    if t == ServerMove(cfg, s) {
      ServerCounts(cfg, s);
    } else {
      var c := if t == ClientMove(cfg, 0, s) then 0 else 1;
      ClientCounts(cfg, c, s);
    }
  }

  // --- Whole runs ------------------------------------------------------------------

  /** Accesses of the server in the first `n` steps, failed polls left out. */
  ghost function ServerAccesses(run: seq<State>, n: nat): nat
    requires n < |run|
  {
    if n == 0 then 0
    else ServerAccesses(run, n - 1) + if run[n].server != run[n - 1].server then 1 else 0
  }

  /** Accesses of client `c` outside its read loop, failed polls left out. */
  ghost function ClientAccesses(run: seq<State>, c: nat, n: nat): nat
    requires n < |run| && forall i :: 0 <= i < |run| ==> c < |run[i].clients|
  {
    if n == 0 then 0
    else ClientAccesses(run, c, n - 1)
         + if run[n].clients[c] != run[n - 1].clients[c] && !InReadLoop(run[n - 1].clients[c]) then 1 else 0
  }

  /** Accesses that a client has left outside its read loop. */
  function OutsideLeft(cfg: Config, p: Client): int {
    if p.at <= 21 then ClientLeft(cfg, 0, p) - 20 else if p.at <= 25 then 3 else 29 - p.at
  }

  /** Before the read loop the stop word makes the same difference everywhere. */
  lemma StopShifts(cfg: Config, stop: int, p: Client)
    requires p.at <= 21
    ensures ClientLeft(cfg, stop, p) - ReaderLeft(stop) == ClientLeft(cfg, 0, p) - 23
  {
  }

  lemma BeforeLoop(cfg: Config, c: int, ctl: Control, mem: Lane, p: Client, side: Side)
    requires cfg.Valid() && ClientPcOk(cfg, p) && |ctl.snapWord| == SNAPSHOT_WORDS && |mem.payload| == cfg.words
    requires side == ClientStep(cfg, c, ctl, mem, p) && p.at <= 20
    ensures side.proc.at <= 21
  {
  }

  /** From the last wait before the read loop on. */
  lemma FromLoop(cfg: Config, c: int, ctl: Control, mem: Lane, p: Client, side: Side)
    requires cfg.Valid() && ClientPcOk(cfg, p) && |ctl.snapWord| == SNAPSHOT_WORDS && |mem.payload| == cfg.words
    requires side == ClientStep(cfg, c, ctl, mem, p) && p.at > 20
    ensures OutsideLeft(cfg, p) - OutsideLeft(cfg, side.proc) == if side.proc != p && !InReadLoop(p) then 1 else 0
  {
  }

  lemma OutsideCounts(cfg: Config, c: int, s: State)
    requires cfg.Valid() && Inv(cfg, s) && 0 <= c < 2
    ensures var p, q := s.clients[c], ClientMove(cfg, c, s).clients[c];
            OutsideLeft(cfg, p) - OutsideLeft(cfg, q) == if q != p && !InReadLoop(p) then 1 else 0
  {
    var p, stop := s.clients[c], s.control.seqlockStop;
    var side := ClientStep(cfg, c, s.control, s.lanes[c], p);
    if p.at > 20 {
      FromLoop(cfg, c, s.control, s.lanes[c], p, side);
    } else {
      BeforeLoop(cfg, c, s.control, s.lanes[c], p, side);
      ClientNeverGrows(cfg, s, c);
      StopShifts(cfg, stop, p);
      StopShifts(cfg, stop, side.proc);
    }
  }

  lemma {:induction false} ServerAccessed(cfg: Config, run: seq<State>, n: nat)
    requires cfg.Valid() && Run(cfg, run) && n < |run|
    ensures ServerAccesses(run, n) == ServerLeft(cfg, run[0].server) - ServerLeft(cfg, run[n].server)
  {
    if n > 0 {
      ServerAccessed(cfg, run, n - 1);
      RunInv(cfg, run, n - 1);
      assert StepAt(cfg, run, n - 1);
      ServerCounts(cfg, run[n - 1]);
    }
  }

  ghost predicate TwoClients(run: seq<State>) {
    forall i :: 0 <= i < |run| ==> |run[i].clients| == 2
  }

  /** What a step of any process leaves to client `c`. */
  lemma OutsideStep(cfg: Config, c: int, s: State, t: State)
    requires cfg.Valid() && Inv(cfg, s) && Step(cfg, s, t) && 0 <= c < 2
    ensures |t.clients| == 2
    ensures OutsideLeft(cfg, s.clients[c]) - OutsideLeft(cfg, t.clients[c])
            == if t.clients[c] != s.clients[c] && !InReadLoop(s.clients[c]) then 1 else 0
  {
    if t == ClientMove(cfg, c, s) {
      OutsideCounts(cfg, c, s);
    } else {
      assert t.clients[c] == s.clients[c];
    }
  }

  lemma {:induction false} ClientAccessed(cfg: Config, run: seq<State>, c: nat, n: nat)
    requires cfg.Valid() && Run(cfg, run) && TwoClients(run) && c < 2 && n < |run|
    ensures ClientAccesses(run, c, n) == OutsideLeft(cfg, run[0].clients[c]) - OutsideLeft(cfg, run[n].clients[c])
  {
    if n > 0 {
      ClientAccessed(cfg, run, c, n - 1);
      RunInv(cfg, run, n - 1);
      assert StepAt(cfg, run, n - 1);
      OutsideStep(cfg, c, run[n - 1], run[n]);
    }
  }

  lemma RunHasTwoClients(cfg: Config, run: seq<State>)
    requires cfg.Valid() && Run(cfg, run)
    ensures TwoClients(run)
  {
    forall i | 0 <= i < |run|
      ensures |run[i].clients| == 2
    {
      RunInv(cfg, run, i);
    }
  }

  /** Every complete run makes exactly as many accesses as the program has, waits counted
      once: of the server six in each handshake with a client, three for every word of a
      client's payload and nine in every update. */
  lemma ServerAccessesInAll(cfg: Config, run: seq<State>, n: nat)
    requires cfg.Valid() && Run(cfg, run) && |run| == n + 1 && run[n].server.at == 33
    ensures ServerAccesses(run, n) == 46 + 12 * cfg.iterations + 6 * cfg.words + 9 * cfg.updates
  {
    ServerAccessed(cfg, run, n);
  }

  /** Of a client six in each handshake and ten for every word of its payload, four in each
      mixed phase; only the accesses of its read loop differ from run to run. */
  lemma ClientAccessesInAll(cfg: Config, run: seq<State>, c: nat, n: nat)
    requires cfg.Valid() && Run(cfg, run) && |run| == n + 1 && c < 2 && c < |run[n].clients| && run[n].clients[c].at == 29
    ensures TwoClients(run) && ClientAccesses(run, c, n) == 19 + 6 * cfg.iterations + 10 * cfg.words
  {
    RunHasTwoClients(cfg, run);
    ClientAccessed(cfg, run, c, n);
  }
}
