/** What the probe's verdict is worth when memory is not coherent.

    A faulty run is a run in which every access may find anything at all in shared
    memory, whatever was stored there.  Errors are counted exactly, and a verdict without
    errors means that every check of the program was made and found what it should. */
module ProbeDetection {
  import opened ProbeModel

  /** Shared memory as one access finds it. */
  datatype Memory = Memory(control: Control, lanes: seq<Lane>)

  function Under(s: State, m: Memory): State {
    State(s.server, m.control, m.lanes, s.clients)
  }

  ghost predicate FaultyStep(cfg: Config, states: seq<State>, seen: seq<Memory>, i: int)
    requires |states| == |seen| + 1 && 0 <= i < |seen|
  {
    Step(cfg, Under(states[i], seen[i]), states[i + 1])
  }

  ghost predicate FaultyRun(cfg: Config, states: seq<State>, seen: seq<Memory>)
    requires cfg.Valid()
  {
    && |states| == |seen| + 1
    && states[0].server == Initial(cfg).server && states[0].clients == Initial(cfg).clients
    && forall i :: 0 <= i < |seen| ==> FaultyStep(cfg, states, seen, i)
  }

  // --- The checks of the server ----------------------------------------------------

  /** What the server finds is not what it should be. */
  ghost predicate ServerFinds(cfg: Config, sv: Server, ctl: Control, lane: Lane)
    requires ServerPcOk(cfg, sv) && |ctl.snapWord| == SNAPSHOT_WORDS && |lane.payload| == cfg.words
  {
    || (sv.at == 5 && lane.pktSeq != sv.k)
    || (sv.at == 6 && !(sv.value == cfg.mix.packetValue(sv.who, sv.k)
                        && lane.pktChecksum == cfg.mix.packetChecksum(sv.who, sv.k, cfg.mix.packetValue(sv.who, sv.k))))
    || (sv.at == 12 && lane.payload[sv.word] != cfg.mix.payloadValue(sv.who, sv.word))
    || (sv.at == 18 && lane.payload[sv.word] != cfg.mix.mixedWrite(sv.k, sv.k - 1, 3, sv.word))
    || (sv.at == 19 && lane.mixedChecksum != cfg.ExpectedChecksum(sv.k, 2 - sv.k))
    || (sv.at == 29 && ctl.snapSeq != 2 * cfg.updates)
    || (sv.at == 30 && ctl.snapWord[sv.word] != cfg.mix.snapshotValue(cfg.updates, sv.word))
    || (sv.at == 31 && lane.seqAccepted == 0)
  }

  ghost predicate ServerFaultAt(cfg: Config, states: seq<State>, seen: seq<Memory>, i: int)
    requires |states| == |seen| + 1 && 0 <= i < |seen| && FaultyStep(cfg, states, seen, i)
  {
    && states[i + 1].server != states[i].server
    && ServerFinds(cfg, states[i].server, seen[i].control, seen[i].lanes[Focus(states[i].server)])
  }

  /** Checks of the server that failed in the first `n` steps. */
  ghost function ServerFaults(cfg: Config, states: seq<State>, seen: seq<Memory>, n: nat): nat
    requires cfg.Valid() && FaultyRun(cfg, states, seen) && n <= |seen|
  {
    if n == 0 then 0
    else ServerFaults(cfg, states, seen, n - 1)
         + (assert FaultyStep(cfg, states, seen, n - 1); if ServerFaultAt(cfg, states, seen, n - 1) then 1 else 0)
  }

  lemma ServerStepCounts1(cfg: Config, sv: Server, ctl: Control, lane: Lane, e: Effect)
    requires cfg.Valid() && ServerPcOk(cfg, sv) && |ctl.snapWord| == SNAPSHOT_WORDS && |lane.payload| == cfg.words
    requires e == ServerStep(cfg, sv, ctl, lane) && sv.at <= 15
    ensures e.sv.errors == Bump(sv.errors, ServerFinds(cfg, sv, ctl, lane))
    ensures ServerFinds(cfg, sv, ctl, lane) ==> e.sv != sv
  {
  }

  lemma ServerStepCounts2(cfg: Config, sv: Server, ctl: Control, lane: Lane, e: Effect)
    requires cfg.Valid() && ServerPcOk(cfg, sv) && |ctl.snapWord| == SNAPSHOT_WORDS && |lane.payload| == cfg.words
    requires e == ServerStep(cfg, sv, ctl, lane) && sv.at > 15
    ensures e.sv.errors == Bump(sv.errors, ServerFinds(cfg, sv, ctl, lane))
    ensures ServerFinds(cfg, sv, ctl, lane) ==> e.sv != sv
  {
  }

  /** What one step adds to the server's errors is what it finds. */
  lemma ServerStepAdds(cfg: Config, s: State, t: State)
    requires cfg.Valid() && Step(cfg, s, t)
    ensures t.server.errors
            == Bump(s.server.errors,
                    t.server != s.server && ServerFinds(cfg, s.server, s.control, s.lanes[Focus(s.server)]))
  {
    var d := Focus(s.server);
    var e := ServerStep(cfg, s.server, s.control, s.lanes[d]);
    if s.server.at <= 15 {
      ServerStepCounts1(cfg, s.server, s.control, s.lanes[d], e);
    } else {
      ServerStepCounts2(cfg, s.server, s.control, s.lanes[d], e);
    }
  }

  lemma BumpWraps(n: nat, wrong: bool)
    ensures Bump(Wrap(n), wrong) == Wrap(n + if wrong then 1 else 0)
  {
  }

  /** The error counter is the number of checks that failed, modulo 2^64. */
  lemma {:induction false} ServerErrorsAreFaults(cfg: Config, states: seq<State>, seen: seq<Memory>, n: nat)
    requires cfg.Valid() && FaultyRun(cfg, states, seen) && n <= |seen|
    ensures states[n].server.errors == Wrap(ServerFaults(cfg, states, seen, n))
  {
    if n > 0 {
      ServerErrorsAreFaults(cfg, states, seen, n - 1);
      assert FaultyStep(cfg, states, seen, n - 1);
      ServerStepAdds(cfg, Under(states[n - 1], seen[n - 1]), states[n]);
      BumpWraps(ServerFaults(cfg, states, seen, n - 1), ServerFaultAt(cfg, states, seen, n - 1));
    }
  }

  // --- To be past a point, a process has been there --------------------------------

  lemma {:induction false} ServerCrosses(states: seq<State>, past: Server -> bool, n: nat) returns (i: nat)
    requires n < |states| && !past(states[0].server) && past(states[n].server)
    ensures i < n && !past(states[i].server) && past(states[i + 1].server)
  {
    if past(states[n - 1].server) {
      i := ServerCrosses(states, past, n - 1);
    } else {
      i := n - 1;
    }
  }

  /** The server is done with the packet `k` of client `c`, and so on for its other checks. */
  predicate PastPacket(sv: Server, c: int, k: int) {
    sv.at > 8 || (3 <= sv.at && (sv.k > k || (sv.k == k && (sv.who > c || (sv.who == c && sv.at > 6)))))
  }

  predicate PastBulk(sv: Server, c: int, word: int) {
    sv.at > 12 || (sv.at == 12 && (sv.who > c || (sv.who == c && sv.word > word)))
  }

  predicate PastMixedWord(sv: Server, k: int, word: int) {
    sv.at > 19 || (16 <= sv.at && (sv.k > k || (sv.k == k && (sv.at == 19 || (sv.at == 18 && sv.word > word)))))
  }

  predicate PastMixed(sv: Server, k: int) {
    sv.at > 19 || (16 <= sv.at && sv.k > k)
  }

  predicate PastSnapshot(sv: Server, word: int) {
    sv.at > 30 || (sv.at == 30 && sv.word > word)
  }

  predicate PastAccepted(sv: Server, c: int) {
    sv.at > 31 || (sv.at == 31 && sv.who > c)
  }

  lemma PacketCrossed(cfg: Config, sv: Server, ctl: Control, lane: Lane, e: Effect, c: int, k: int)
    requires cfg.Valid() && ServerPcOk(cfg, sv) && |ctl.snapWord| == SNAPSHOT_WORDS && |lane.payload| == cfg.words
    requires e == ServerStep(cfg, sv, ctl, lane) && 0 <= c < 2 && 1 <= k <= cfg.iterations
    requires !PastPacket(sv, c, k) && PastPacket(e.sv, c, k)
    ensures 5 <= sv.at <= 6 && sv.who == c && sv.k == k && (sv.at == 5 ==> ServerFinds(cfg, sv, ctl, lane))
  {
  }

  lemma BulkCrossed(cfg: Config, sv: Server, ctl: Control, lane: Lane, e: Effect, c: int, word: int)
    requires cfg.Valid() && ServerPcOk(cfg, sv) && |ctl.snapWord| == SNAPSHOT_WORDS && |lane.payload| == cfg.words
    requires e == ServerStep(cfg, sv, ctl, lane) && 0 <= c < 2 && 0 <= word < cfg.words
    requires !PastBulk(sv, c, word) && PastBulk(e.sv, c, word)
    ensures sv.at == 12 && sv.who == c && sv.word == word
  {
  }

  lemma MixedWordCrossed(cfg: Config, sv: Server, ctl: Control, lane: Lane, e: Effect, k: int, word: int)
    requires cfg.Valid() && ServerPcOk(cfg, sv) && |ctl.snapWord| == SNAPSHOT_WORDS && |lane.payload| == cfg.words
    requires e == ServerStep(cfg, sv, ctl, lane) && 1 <= k <= 2 && 0 <= word < cfg.words
    requires !PastMixedWord(sv, k, word) && PastMixedWord(e.sv, k, word)
    ensures sv.at == 18 && sv.k == k && sv.word == word
  {
  }

  lemma LaterCrossed(cfg: Config, sv: Server, ctl: Control, lane: Lane, e: Effect)
    requires cfg.Valid() && ServerPcOk(cfg, sv) && |ctl.snapWord| == SNAPSHOT_WORDS && |lane.payload| == cfg.words
    requires e == ServerStep(cfg, sv, ctl, lane)
    ensures forall k :: 1 <= k <= 2 && !PastMixed(sv, k) && PastMixed(e.sv, k) ==> sv.at == 19 && sv.k == k
    ensures sv.at <= 29 && e.sv.at > 29 ==> sv.at == 29
    ensures forall w :: 0 <= w < SNAPSHOT_WORDS && !PastSnapshot(sv, w) && PastSnapshot(e.sv, w) ==> sv.at == 30 && sv.word == w
    ensures forall c :: 0 <= c < 2 && !PastAccepted(sv, c) && PastAccepted(e.sv, c) ==> sv.at == 31 && sv.who == c
  {
  }

  // --- A verdict without errors ----------------------------------------------------

  lemma {:induction false} FaultsGrow(cfg: Config, states: seq<State>, seen: seq<Memory>, i: nat, n: nat)
    requires cfg.Valid() && FaultyRun(cfg, states, seen) && i < n <= |seen| && FaultyStep(cfg, states, seen, i)
    ensures ServerFaults(cfg, states, seen, n) <= n
    ensures ServerFaultAt(cfg, states, seen, i) ==> ServerFaults(cfg, states, seen, n) > 0
  {
    if i < n - 1 {
      FaultsGrow(cfg, states, seen, i, n - 1);
    } else if n > 1 {
      assert FaultyStep(cfg, states, seen, n - 2);
      FaultsGrow(cfg, states, seen, n - 2, n - 1);
    }
  }

  /** The server is done and counted no error; fewer than 2^64 steps were made. */
  ghost predicate ServerPasses(cfg: Config, states: seq<State>, seen: seq<Memory>)
    requires cfg.Valid()
  {
    && FaultyRun(cfg, states, seen) && |seen| < 0x1_0000_0000_0000_0000
    && states[|seen|].server.at == 33 && states[|seen|].server.errors == 0
  }

  ghost predicate Fits(cfg: Config, sv: Server, m: Memory) {
    && ServerPcOk(cfg, sv) && |m.control.snapWord| == SNAPSHOT_WORDS && |m.lanes| == 2
    && |m.lanes[0].payload| == cfg.words && |m.lanes[1].payload| == cfg.words
  }

  /** Some step takes the server past a point, and finds what it should. */
  lemma PassedFine(cfg: Config, states: seq<State>, seen: seq<Memory>, past: Server -> bool)
    returns (i: nat, sv: Server, m: Memory, e: Effect)
    requires cfg.Valid() && ServerPasses(cfg, states, seen) && !past(states[0].server) && past(states[|seen|].server)
    ensures i < |seen| && sv == states[i].server && m == seen[i] && Fits(cfg, sv, m)
    ensures e == ServerStep(cfg, sv, m.control, m.lanes[Focus(sv)]) && !past(sv) && past(e.sv)
    ensures !ServerFinds(cfg, sv, m.control, m.lanes[Focus(sv)])
  {
    i := ServerCrosses(states, past, |seen|);
    sv, m := states[i].server, seen[i];
    assert FaultyStep(cfg, states, seen, i);
    e := ServerStep(cfg, sv, m.control, m.lanes[Focus(sv)]);
    ServerErrorsAreFaults(cfg, states, seen, |seen|);
    FaultsGrow(cfg, states, seen, i, |seen|);
  }

  /** The server works on packet `k` of client `c` and holds this value. */
  predicate HoldsValue(sv: Server, c: int, k: int, value: int) {
    5 <= sv.at <= 6 && sv.who == c && sv.k == k && sv.value == value
  }

  lemma ValueLoaded(cfg: Config, sv: Server, ctl: Control, lane: Lane, e: Effect, c: int, k: int, value: int)
    requires cfg.Valid() && ServerPcOk(cfg, sv) && |ctl.snapWord| == SNAPSHOT_WORDS && |lane.payload| == cfg.words
    requires e == ServerStep(cfg, sv, ctl, lane) && !HoldsValue(sv, c, k, value) && HoldsValue(e.sv, c, k, value)
    ensures sv.at == 4 && sv.who == c && lane.pktValue == value
  {
  }

  /** Every packet was taken up with its value, and then its checksum was right. */
  lemma PacketWasRight(cfg: Config, states: seq<State>, seen: seq<Memory>, c: int, k: int) returns (j: nat, i: nat)
    requires cfg.Valid() && ServerPasses(cfg, states, seen) && 0 <= c < 2 && 1 <= k <= cfg.iterations
    ensures j < i < |seen| && |seen[j].lanes| == 2 && |seen[i].lanes| == 2
    ensures seen[j].lanes[c].pktValue == cfg.mix.packetValue(c, k)
    ensures seen[i].lanes[c].pktChecksum == cfg.mix.packetChecksum(c, k, cfg.mix.packetValue(c, k))
  {
    var sv, m, e;
    i, sv, m, e := PassedFine(cfg, states, seen, sv => PastPacket(sv, c, k));
    PacketCrossed(cfg, sv, m.control, m.lanes[Focus(sv)], e, c, k);
    j := ServerCrosses(states, sv => HoldsValue(sv, c, k, cfg.mix.packetValue(c, k)), i);
    assert FaultyStep(cfg, states, seen, j);
    sv, m := states[j].server, seen[j];
    e := ServerStep(cfg, sv, m.control, m.lanes[Focus(sv)]);
    ValueLoaded(cfg, sv, m.control, m.lanes[Focus(sv)], e, c, k, cfg.mix.packetValue(c, k));
  }

  /** Every word of both payloads was found as the client stored it. */
  lemma BulkWasRight(cfg: Config, states: seq<State>, seen: seq<Memory>, c: int, word: int) returns (i: nat)
    requires cfg.Valid() && ServerPasses(cfg, states, seen) && 0 <= c < 2 && 0 <= word < cfg.words
    ensures i < |seen| && |seen[i].lanes| == 2 && |seen[i].lanes[c].payload| == cfg.words
    ensures seen[i].lanes[c].payload[word] == cfg.mix.payloadValue(c, word)
  {
    var sv, m, e;
    i, sv, m, e := PassedFine(cfg, states, seen, sv => PastBulk(sv, c, word));
    BulkCrossed(cfg, sv, m.control, m.lanes[Focus(sv)], e, c, word);
  }

  /** Every word was found as the last of the four passes of its writer left it. */
  lemma MixedWordWasRight(cfg: Config, states: seq<State>, seen: seq<Memory>, k: int, word: int) returns (i: nat)
    requires cfg.Valid() && ServerPasses(cfg, states, seen) && 1 <= k <= 2 && 0 <= word < cfg.words
    ensures i < |seen| && |seen[i].lanes| == 2 && |seen[i].lanes[k - 1].payload| == cfg.words
    ensures seen[i].lanes[k - 1].payload[word] == cfg.mix.mixedWrite(k, k - 1, 3, word)
  {
    var sv, m, e;
    i, sv, m, e := PassedFine(cfg, states, seen, sv => PastMixedWord(sv, k, word));
    MixedWordCrossed(cfg, sv, m.control, m.lanes[Focus(sv)], e, k, word);
  }

  /** Both checksums were found right. */
  lemma ChecksumWasRight(cfg: Config, states: seq<State>, seen: seq<Memory>, k: int) returns (i: nat)
    requires cfg.Valid() && ServerPasses(cfg, states, seen) && 1 <= k <= 2
    ensures i < |seen| && |seen[i].lanes| == 2
    ensures seen[i].lanes[2 - k].mixedChecksum == cfg.ExpectedChecksum(k, 2 - k)
  {
    var sv, m, e;
    i, sv, m, e := PassedFine(cfg, states, seen, sv => PastMixed(sv, k));
    LaterCrossed(cfg, sv, m.control, m.lanes[Focus(sv)], e);
  }

  /** The sequence word at the end was that of the last version. */
  lemma SequenceWasRight(cfg: Config, states: seq<State>, seen: seq<Memory>) returns (i: nat)
    requires cfg.Valid() && ServerPasses(cfg, states, seen)
    ensures i < |seen| && seen[i].control.snapSeq == 2 * cfg.updates
  {
    var sv, m, e;
    i, sv, m, e := PassedFine(cfg, states, seen, (sv: Server) => sv.at > 29);
    LaterCrossed(cfg, sv, m.control, m.lanes[Focus(sv)], e);
  }

  /** Every word of the snapshot at the end was that of the last version. */
  lemma SnapshotWasRight(cfg: Config, states: seq<State>, seen: seq<Memory>, word: int) returns (i: nat)
    requires cfg.Valid() && ServerPasses(cfg, states, seen) && 0 <= word < 7
    ensures i < |seen| && |seen[i].control.snapWord| == 7
    ensures seen[i].control.snapWord[word] == cfg.mix.snapshotValue(cfg.updates, word)
  {
    var sv, m, e;
    i, sv, m, e := PassedFine(cfg, states, seen, sv => PastSnapshot(sv, word));
    LaterCrossed(cfg, sv, m.control, m.lanes[Focus(sv)], e);
  }

  /** Each client was seen to have accepted a snapshot. */
  lemma SomeWereAccepted(cfg: Config, states: seq<State>, seen: seq<Memory>, c: int) returns (i: nat)
    requires cfg.Valid() && ServerPasses(cfg, states, seen) && 0 <= c < 2
    ensures i < |seen| && |seen[i].lanes| == 2 && seen[i].lanes[c].seqAccepted != 0
  {
    var sv, m, e;
    i, sv, m, e := PassedFine(cfg, states, seen, sv => PastAccepted(sv, c));
    LaterCrossed(cfg, sv, m.control, m.lanes[Focus(sv)], e);
  }

  /** What the server read from the clients' own error counts in the first `n` steps. */
  ghost function ErrorsRead(cfg: Config, states: seq<State>, seen: seq<Memory>, n: nat): int
    requires cfg.Valid() && FaultyRun(cfg, states, seen) && n <= |seen|
  {
    if n == 0 then 0
    else ErrorsRead(cfg, states, seen, n - 1)
         + (assert FaultyStep(cfg, states, seen, n - 1);
            if states[n].server != states[n - 1].server && states[n - 1].server.at == 32
            then seen[n - 1].lanes[states[n - 1].server.who].pktErrors else 0)
  }

  lemma ClientErrorsAdded(cfg: Config, sv: Server, ctl: Control, lane: Lane, e: Effect)
    requires cfg.Valid() && ServerPcOk(cfg, sv) && |ctl.snapWord| == SNAPSHOT_WORDS && |lane.payload| == cfg.words
    requires e == ServerStep(cfg, sv, ctl, lane)
    ensures e.sv.clientErrors == if sv.at == 32 then Wrap(sv.clientErrors + lane.pktErrors) else sv.clientErrors
    ensures sv.at == 32 ==> e.sv != sv
    ensures forall c :: 0 <= c < 2 && !PastErrors(sv, c) && PastErrors(e.sv, c) ==> sv.at == 32 && sv.who == c
  {
  }

  predicate PastErrors(sv: Server, c: int) {
    sv.at > 32 || (sv.at == 32 && sv.who > c)
  }

  /** The verdict on the clients is the sum of what was read, modulo 2^64. */
  lemma {:induction false} ErrorsAreTotalled(cfg: Config, states: seq<State>, seen: seq<Memory>, n: nat)
    requires cfg.Valid() && FaultyRun(cfg, states, seen) && n <= |seen|
    ensures states[n].server.clientErrors == Wrap(ErrorsRead(cfg, states, seen, n))
  {
    if n > 0 {
      ErrorsAreTotalled(cfg, states, seen, n - 1);
      assert FaultyStep(cfg, states, seen, n - 1);
      var s := Under(states[n - 1], seen[n - 1]);
      var d := Focus(s.server);
      ClientErrorsAdded(cfg, s.server, s.control, s.lanes[d], ServerStep(cfg, s.server, s.control, s.lanes[d]));
    }
  }

  /** And the count of each client was read. */
  lemma ErrorsWereRead(cfg: Config, states: seq<State>, seen: seq<Memory>, c: int) returns (i: nat)
    requires cfg.Valid() && FaultyRun(cfg, states, seen) && states[|seen|].server.at == 33 && 0 <= c < 2
    ensures i < |seen| && states[i].server.at == 32 && states[i].server.who == c && states[i + 1].server != states[i].server
  {
    i := ServerCrosses(states, sv => PastErrors(sv, c), |seen|);
    assert FaultyStep(cfg, states, seen, i);
    var s := Under(states[i], seen[i]);
    var d := Focus(s.server);
    ClientErrorsAdded(cfg, s.server, s.control, s.lanes[d], ServerStep(cfg, s.server, s.control, s.lanes[d]));
  }

  // --- The checks of a client ------------------------------------------------------

  /** Words of an accepted snapshot that are not those of its version. */
  ghost function Strays(cfg: Config, version: int, vals: seq<int>): set<int> {
    set w | 0 <= w < |vals| && vals[w] != cfg.mix.snapshotValue(version, w)
  }

  /** Errors that a client counts in one step. */
  ghost function ClientFinds(cfg: Config, c: int, ctl: Control, mem: Lane, p: Client): nat
    requires ClientPcOk(cfg, p) && |mem.payload| == cfg.words
  {
    if p.at == 8 then
      if mem.pktReply != cfg.mix.packetReply(c, p.k, cfg.mix.packetValue(c, p.k)) then 1 else 0
    else if p.at == 14 then
      if mem.payload[p.word] != cfg.mix.complement(cfg.mix.payloadValue(c, p.word)) then 1 else 0
    else if p.at == 25 && p.first == ctl.snapSeq && ctl.snapSeq % 2 == 0 then |Strays(cfg, ctl.snapSeq / 2, p.vals)|
    else 0
  }

  lemma {:induction false} StraysAreMismatches(cfg: Config, version: int, vals: seq<int>, word: nat)
    requires word <= |vals|
    ensures Mismatches(cfg, version, vals, word)
            == |set w | word <= w < |vals| && vals[w] != cfg.mix.snapshotValue(version, w)|
    decreases |vals| - word
  {
    var here := set w | word <= w < |vals| && vals[w] != cfg.mix.snapshotValue(version, w);
    if word == |vals| {
      assert here == {};
    } else {
      StraysAreMismatches(cfg, version, vals, word + 1);
      var rest := set w | word + 1 <= w < |vals| && vals[w] != cfg.mix.snapshotValue(version, w);
      assert here == if vals[word] != cfg.mix.snapshotValue(version, word) then rest + {word} else rest;
    }
  }

  /** Errors a client has counted, those of its snapshots included. */
  function Counted(p: Client): int {
    if p.at <= 26 then p.errors + p.snapErrors else p.errors
  }

  lemma ClientStepCounts1(cfg: Config, c: int, ctl: Control, mem: Lane, p: Client, side: Side)
    requires cfg.Valid() && ClientPcOk(cfg, p) && |ctl.snapWord| == SNAPSHOT_WORDS && |mem.payload| == cfg.words
    requires side == ClientStep(cfg, c, ctl, mem, p) && p.at <= 22
    ensures Wrap(Counted(side.proc)) == Wrap(Counted(p) + ClientFinds(cfg, c, ctl, mem, p))
    ensures ClientFinds(cfg, c, ctl, mem, p) > 0 ==> side.proc != p
    ensures ClientFinds(cfg, c, ctl, mem, p) <= 7
  {
  }

  lemma ClientStepCounts2(cfg: Config, c: int, ctl: Control, mem: Lane, p: Client, side: Side)
    requires cfg.Valid() && ClientPcOk(cfg, p) && |ctl.snapWord| == SNAPSHOT_WORDS && |mem.payload| == cfg.words
    requires side == ClientStep(cfg, c, ctl, mem, p) && p.at > 22
    ensures Wrap(Counted(side.proc)) == Wrap(Counted(p) + ClientFinds(cfg, c, ctl, mem, p))
    ensures ClientFinds(cfg, c, ctl, mem, p) > 0 ==> side.proc != p
    ensures ClientFinds(cfg, c, ctl, mem, p) <= 7
  {
    if p.at == 25 {
      var version := ctl.snapSeq / 2;
      StraysAreMismatches(cfg, version, p.vals, 0);
      FewStrays(cfg, version, p.vals, 0);
      WrapAgain(p.errors, p.snapErrors + Mismatches(cfg, version, p.vals, 0));
    }
  }

  lemma {:induction false} FewStrays(cfg: Config, version: int, vals: seq<int>, word: nat)
    requires word <= |vals|
    ensures Mismatches(cfg, version, vals, word) <= |vals| - word
    decreases |vals| - word
  {
    if word < |vals| {
      FewStrays(cfg, version, vals, word + 1);
    }
  }

  lemma WrapAgain(a: int, b: int)
    ensures Wrap(a + Wrap(b)) == Wrap(a + b)
  {
  }

  ghost function ClientFaultsAt(cfg: Config, states: seq<State>, seen: seq<Memory>, c: nat, i: nat): nat
    requires |states| == |seen| + 1 && i < |seen| && FaultyStep(cfg, states, seen, i) && c < 2
  {
    if states[i + 1].clients[c] == states[i].clients[c] then 0
    else ClientFinds(cfg, c, seen[i].control, seen[i].lanes[c], states[i].clients[c])
  }

  function SumTo(f: nat -> nat, n: nat): nat {
    if n == 0 then 0 else SumTo(f, n - 1) + f(n - 1)
  }

  /** What client `c` finds wrong in each step. */
  ghost function FoundBy(cfg: Config, states: seq<State>, seen: seq<Memory>, c: nat): nat -> nat
    requires cfg.Valid() && FaultyRun(cfg, states, seen) && c < 2
  {
    (i: nat) => if i < |seen| then (assert FaultyStep(cfg, states, seen, i); ClientFaultsAt(cfg, states, seen, c, i)) else 0
  }

  /** Errors that client `c` met in the first `n` steps. */
  ghost function ClientFaults(cfg: Config, states: seq<State>, seen: seq<Memory>, c: nat, n: nat): nat
    requires cfg.Valid() && FaultyRun(cfg, states, seen) && c < 2
  {
    SumTo(FoundBy(cfg, states, seen, c), n)
  }

  lemma ClientErrorsStep(cfg: Config, s: State, t: State, c: nat)
    requires cfg.Valid() && Step(cfg, s, t) && c < 2
    ensures |t.clients| == 2
    ensures ClientFinds(cfg, c, s.control, s.lanes[c], s.clients[c]) <= 7
    ensures t.clients[c] == s.clients[c]
            || Wrap(Counted(t.clients[c]))
               == Wrap(Counted(s.clients[c]) + ClientFinds(cfg, c, s.control, s.lanes[c], s.clients[c]))
  {
    var p := s.clients[c];
    var side := ClientStep(cfg, c, s.control, s.lanes[c], p);
    if p.at <= 22 {
      ClientStepCounts1(cfg, c, s.control, s.lanes[c], p, side);
    } else {
      ClientStepCounts2(cfg, c, s.control, s.lanes[c], p, side);
    }
  }

  ghost function CountedBy(states: seq<State>, c: nat): nat -> int {
    (i: nat) => if i < |states| && c < |states[i].clients| then Counted(states[i].clients[c]) else 0
  }

  lemma WrapSame(a: int, b: int, d: int)
    requires Wrap(a) == Wrap(b)
    ensures Wrap(a + d) == Wrap(b + d)
  {
  }

  /** A counter that grows by `f` is the sum of `f`. */
  lemma {:induction false} Accumulates(count: nat -> int, f: nat -> nat, n: nat)
    requires count(0) == 0
    requires forall i: nat :: i < n ==> Wrap(count(i + 1)) == Wrap(count(i) + f(i)) && f(i) <= 7
    ensures Wrap(count(n)) == Wrap(SumTo(f, n)) && SumTo(f, n) <= 7 * n
  {
    if n > 0 {
      Accumulates(count, f, n - 1);
      WrapSame(count(n - 1), SumTo(f, n - 1), f(n - 1));
    }
  }

  lemma {:induction false} SumIsAtLeast(f: nat -> nat, i: nat, n: nat)
    requires i < n
    ensures f(i) <= SumTo(f, n)
  {
    if i < n - 1 {
      SumIsAtLeast(f, i, n - 1);
    }
  }

  lemma {:induction false} TwoClients(cfg: Config, states: seq<State>, seen: seq<Memory>, n: nat)
    requires cfg.Valid() && FaultyRun(cfg, states, seen) && n <= |seen|
    ensures |states[n].clients| == 2
  {
    if n > 0 {
      assert FaultyStep(cfg, states, seen, n - 1);
    }
  }

  lemma StartsClean(cfg: Config, c: nat)
    requires cfg.Valid() && c < 2
    ensures |Initial(cfg).clients| == 2 && Counted(Initial(cfg).clients[c]) == 0
  {
  }

  /** What one step adds to the count is what it finds. */
  lemma FaultsAdd(cfg: Config, states: seq<State>, seen: seq<Memory>, c: nat, i: nat)
    requires cfg.Valid() && FaultyRun(cfg, states, seen) && i < |seen| && c < 2
    ensures var f, count := FoundBy(cfg, states, seen, c), CountedBy(states, c);
            Wrap(count(i + 1)) == Wrap(count(i) + f(i)) && f(i) <= 7
  {
    assert FaultyStep(cfg, states, seen, i);
    TwoClients(cfg, states, seen, i);
    TwoClients(cfg, states, seen, i + 1);
    ClientErrorsStep(cfg, Under(states[i], seen[i]), states[i + 1], c);
  }

  /** A client's errors are the checks that failed, modulo 2^64. */
  lemma ClientErrorsAreFaults(cfg: Config, states: seq<State>, seen: seq<Memory>, c: nat, n: nat)
    requires cfg.Valid() && FaultyRun(cfg, states, seen) && n <= |seen| && c < 2
    ensures |states[n].clients| == 2
    ensures Wrap(Counted(states[n].clients[c])) == Wrap(ClientFaults(cfg, states, seen, c, n))
    ensures ClientFaults(cfg, states, seen, c, n) <= 7 * n
  {
    var f, count := FoundBy(cfg, states, seen, c), CountedBy(states, c);
    forall i: nat | i < n
      ensures Wrap(count(i + 1)) == Wrap(count(i) + f(i)) && f(i) <= 7
    {
      FaultsAdd(cfg, states, seen, c, i);
    }
    StartsClean(cfg, c);
    TwoClients(cfg, states, seen, n);
    Accumulates(count, f, n);
  }

  /** The client is done and counted no error; too few steps were made for its counter to
      come back to zero. */
  ghost predicate ClientPasses(cfg: Config, states: seq<State>, seen: seq<Memory>, c: nat)
    requires cfg.Valid() && c < 2
  {
    && FaultyRun(cfg, states, seen) && 7 * |seen| < 0x1_0000_0000_0000_0000
    && |states[|seen|].clients| == 2 && states[|seen|].clients[c].at == 29 && states[|seen|].clients[c].errors == 0
  }

  lemma ClientFoundNothing(cfg: Config, states: seq<State>, seen: seq<Memory>, c: nat, i: nat)
    requires cfg.Valid() && c < 2 && ClientPasses(cfg, states, seen, c) && i < |seen|
    ensures FaultyStep(cfg, states, seen, i) && ClientFaultsAt(cfg, states, seen, c, i) == 0
  {
    assert FaultyStep(cfg, states, seen, i);
    ClientErrorsAreFaults(cfg, states, seen, c, |seen|);
    SumIsAtLeast(FoundBy(cfg, states, seen, c), i, |seen|);
  }

  lemma {:induction false} ClientCrosses(states: seq<State>, past: Client -> bool, c: nat, n: nat) returns (i: nat)
    requires n < |states| && forall i :: 0 <= i <= n ==> c < |states[i].clients|
    requires !past(states[0].clients[c]) && past(states[n].clients[c])
    ensures i < n && !past(states[i].clients[c]) && past(states[i + 1].clients[c])
  {
    if past(states[n - 1].clients[c]) {
      i := ClientCrosses(states, past, c, n - 1);
    } else {
      i := n - 1;
    }
  }

  /** Some step takes the client past a point, and finds what it should. */
  lemma ClientPassedFine(cfg: Config, states: seq<State>, seen: seq<Memory>, c: nat, past: Client -> bool)
    returns (i: nat, p: Client, side: Side)
    requires cfg.Valid() && c < 2 && ClientPasses(cfg, states, seen, c)
    requires past(states[|seen|].clients[c]) && !past(Initial(cfg).clients[c])
    ensures i < |seen| && FaultyStep(cfg, states, seen, i) && p == states[i].clients[c]
    ensures side == ClientStep(cfg, c, seen[i].control, seen[i].lanes[c], p) && !past(p) && past(side.proc)
    ensures ClientFinds(cfg, c, seen[i].control, seen[i].lanes[c], p) == 0
  {
    forall i | 0 <= i <= |seen|
      ensures |states[i].clients| == 2
    {
      ClientErrorsAreFaults(cfg, states, seen, c, i);
    }
    i := ClientCrosses(states, past, c, |seen|);
    ClientFoundNothing(cfg, states, seen, c, i);
    p := states[i].clients[c];
    side := ClientStep(cfg, c, seen[i].control, seen[i].lanes[c], p);
  }

  predicate PastReply(p: Client, k: int) {
    p.at > 8 || (3 <= p.at && p.k > k)
  }

  predicate PastWord(p: Client, word: int) {
    p.at > 14 || (p.at == 14 && p.word > word)
  }

  lemma ClientCrossed(cfg: Config, c: int, ctl: Control, mem: Lane, p: Client, side: Side)
    requires cfg.Valid() && ClientPcOk(cfg, p) && |ctl.snapWord| == SNAPSHOT_WORDS && |mem.payload| == cfg.words
    requires side == ClientStep(cfg, c, ctl, mem, p)
    ensures forall k :: 1 <= k <= cfg.iterations && !PastReply(p, k) && PastReply(side.proc, k) ==> p.at == 8 && p.k == k
    ensures forall w :: 0 <= w < cfg.words && !PastWord(p, w) && PastWord(side.proc, w) ==> p.at == 14 && p.word == w
  {
  }

  /** Every packet was answered with its reply. */
  lemma ReplyWasRight(cfg: Config, states: seq<State>, seen: seq<Memory>, c: nat, k: int) returns (i: nat)
    requires cfg.Valid() && c < 2 && ClientPasses(cfg, states, seen, c) && 1 <= k <= cfg.iterations
    ensures i < |seen| && |seen[i].lanes| == 2
    ensures seen[i].lanes[c].pktReply == cfg.mix.packetReply(c, k, cfg.mix.packetValue(c, k))
  {
    var p, side;
    i, p, side := ClientPassedFine(cfg, states, seen, c, p => PastReply(p, k));
    ClientCrossed(cfg, c, seen[i].control, seen[i].lanes[c], p, side);
  }

  /** Every word of the payload was found as the server wrote it back. */
  lemma WritebackWasRight(cfg: Config, states: seq<State>, seen: seq<Memory>, c: nat, word: int) returns (i: nat)
    requires cfg.Valid() && c < 2 && ClientPasses(cfg, states, seen, c) && 0 <= word < cfg.words
    ensures i < |seen| && |seen[i].lanes| == 2 && |seen[i].lanes[c].payload| == cfg.words
    ensures seen[i].lanes[c].payload[word] == cfg.mix.complement(cfg.mix.payloadValue(c, word))
  {
    var p, side;
    i, p, side := ClientPassedFine(cfg, states, seen, c, p => PastWord(p, word));
    ClientCrossed(cfg, c, seen[i].control, seen[i].lanes[c], p, side);
  }

  lemma NoStray(cfg: Config, version: int, vals: seq<int>, word: int)
    requires |Strays(cfg, version, vals)| == 0 && 0 <= word < |vals|
    ensures vals[word] == cfg.mix.snapshotValue(version, word)
  {
    assert vals[word] != cfg.mix.snapshotValue(version, word) ==> word in Strays(cfg, version, vals);
  }

  /** Every snapshot that the client counted had all seven words of its version. */
  lemma SnapshotWasWhole(cfg: Config, states: seq<State>, seen: seq<Memory>, c: nat, i: nat, word: int)
    requires cfg.Valid() && c < 2 && ClientPasses(cfg, states, seen, c) && i < |seen| && 0 <= word < 7
    requires |states[i].clients| == 2 && |states[i + 1].clients| == 2
    requires |states[i + 1].clients[c].log| > |states[i].clients[c].log|
    ensures var p, version := states[i].clients[c], states[i + 1].clients[c].log[|states[i].clients[c].log|];
            |p.vals| == 7 && p.vals[word] == cfg.mix.snapshotValue(version, word)
  {
    ClientFoundNothing(cfg, states, seen, c, i);
    var p := states[i].clients[c];
    Accepts(cfg, c, seen[i].control, seen[i].lanes[c], p, ClientStep(cfg, c, seen[i].control, seen[i].lanes[c], p));
    NoStray(cfg, seen[i].control.snapSeq / 2, p.vals, word);
  }

  /** A snapshot is counted at the end of an attempt that met one even sequence word. */
  lemma Accepts(cfg: Config, c: int, ctl: Control, mem: Lane, p: Client, side: Side)
    requires cfg.Valid() && ClientPcOk(cfg, p) && |ctl.snapWord| == SNAPSHOT_WORDS && |mem.payload| == cfg.words
    requires side == ClientStep(cfg, c, ctl, mem, p)
    ensures |side.proc.log| > |p.log| ==>
              p.at == 25 && p.first == ctl.snapSeq && ctl.snapSeq % 2 == 0 && side.proc.log == p.log + [ctl.snapSeq / 2]
  {
  }

  predicate PastPublishing(p: Client) {
    p.at > 27
  }

  lemma Publishes(cfg: Config, c: int, ctl: Control, mem: Lane, p: Client, side: Side)
    requires cfg.Valid() && ClientPcOk(cfg, p) && |ctl.snapWord| == SNAPSHOT_WORDS && |mem.payload| == cfg.words
    requires side == ClientStep(cfg, c, ctl, mem, p)
    ensures !PastPublishing(p) && PastPublishing(side.proc) ==> side.mem.pktErrors == side.proc.errors
    ensures PastPublishing(p) ==> PastPublishing(side.proc) && side.proc.errors == p.errors
  {
  }

  /** A client that is done has stored its error count where the server reads it. */
  lemma {:induction false} ErrorsWerePublished(cfg: Config, states: seq<State>, seen: seq<Memory>, c: nat, n: nat)
    returns (i: nat)
    requires cfg.Valid() && FaultyRun(cfg, states, seen) && c < 2 && n <= |seen|
    requires |states[n].clients| == 2 && PastPublishing(states[n].clients[c])
    ensures i < n && |states[i + 1].lanes| == 2 && states[i + 1].lanes[c].pktErrors == states[n].clients[c].errors
  {
    assert n > 0;
    assert FaultyStep(cfg, states, seen, n - 1);
    var p := states[n - 1].clients[c];
    Publishes(cfg, c, seen[n - 1].control, seen[n - 1].lanes[c], p,
              ClientStep(cfg, c, seen[n - 1].control, seen[n - 1].lanes[c], p));
    if PastPublishing(p) {
      i := ErrorsWerePublished(cfg, states, seen, c, n - 1);
    } else {
      i := n - 1;
    }
  }
}
