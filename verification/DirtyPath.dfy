/** The dirty-path monitor over a coherence trace: which target lines were handed over
    by a request, a snoop, its acknowledgement and its completion. */
module DirtyPath {
  import opened Options
  import opened JsonFields

  /** The event of a record: one of four, another text, or no text. */
  datatype Kind = Request | SnoopSend | SnoopAck | DirtyCompletion | Named(text: string) | NotText

  datatype Opcode = GETS | GETM | UPGRADE | SNP_DATA_INV | SNOOP_ACK | OtherOpcode

  /** `ok` is status OK, `modelled` is ack strength MODEL, `dirty` is dirty data true. */
  datatype Record = Record(
    kind: Kind, opcode: Opcode, time: Field, line: Field, snoopId: Field, session: Field, epoch: Field,
    payload: Field, ok: bool, modelled: bool, dirty: bool, requestId: Field, source: Field, destination: Field)

  datatype Error = Truncated | BadRecord | BadSchema | BadTime | TimeReversed | NoTarget | BadTarget | BadField

  datatype Result<+T> = Ok(value: T) | Err(error: Error)

  // --- Reading the trace -----------------------------------------------------------

  datatype Line = Unreadable | Parsed(currentSchema: bool, record: Record)

  predicate Readable(line: Line) {
    line.Parsed? && line.currentSchema && line.record.time.Whole?
  }

  /** Every record has an integer time and none is earlier than one before it. */
  predicate Ordered(records: seq<Record>) {
    && (forall i :: 0 <= i < |records| ==> records[i].time.Whole?)
    && forall i, j :: 0 <= i < j < |records| ==> records[i].time.n <= records[j].time.n
  }

  predicate Holds(lines: seq<Line>, records: seq<Record>) {
    |records| == |lines| && forall i :: 0 <= i < |lines| ==> Readable(lines[i]) && records[i] == lines[i].record
  }

  /** Line `i` is the first that cannot follow those before it, and the error says why. */
  predicate FirstFault(lines: seq<Line>, i: int, e: Error) {
    && 0 <= i < |lines| && (forall j :: 0 <= j < i ==> Readable(lines[j]))
    && (forall j, k :: 0 <= j < k < i ==> lines[j].record.time.n <= lines[k].record.time.n)
    && (e.BadRecord? <==> lines[i].Unreadable?)
    && (e.BadSchema? <==> lines[i].Parsed? && !lines[i].currentSchema)
    && (e.BadTime? <==> lines[i].Parsed? && lines[i].currentSchema && !lines[i].record.time.Whole?)
    && (e.TimeReversed? <==> Readable(lines[i]))
    && (Readable(lines[i]) ==> i > 0 && lines[i].record.time.n < lines[i - 1].record.time.n)
  }

  /** The records of a trace whose times never go back.  Only neighbours are compared. */
  method ReadTrace(lines: seq<Line>, truncated: bool) returns (r: Result<seq<Record>>)
    ensures r.Ok? ==> !truncated && Holds(lines, r.value) && Ordered(r.value)
    ensures r.Err? ==> truncated || !exists records :: Holds(lines, records) && Ordered(records)
    ensures r.Err? ==> if truncated then r.error.Truncated? else exists i :: FirstFault(lines, i, r.error)
  {
    if truncated {
      return Err(Truncated);
    }
    var records: seq<Record> := [];
    var previous: Option<int> := None;
    var i := 0;
    while i < |lines|
      invariant 0 <= i <= |lines|
      invariant Holds(lines[..i], records) && Ordered(records)
      invariant previous == if i == 0 then None else Some(records[i - 1].time.n)
    {
      assert forall j :: 0 <= j < i ==> lines[..i][j] == lines[j];
      if lines[i].Unreadable? {
        assert FirstFault(lines, i, BadRecord);
        return Err(BadRecord);
      }
      if !lines[i].currentSchema {
        assert FirstFault(lines, i, BadSchema);
        return Err(BadSchema);
      }
      if !lines[i].record.time.Whole? {
        assert FirstFault(lines, i, BadTime);
        return Err(BadTime);
      }
      var now := lines[i].record.time.n;
      if previous.Some? && now < previous.value {
        forall other: seq<Record> | Holds(lines, other)
          ensures !Ordered(other)
        {
          assert lines[..i][i - 1] == lines[i - 1];
          assert other[i - 1].time.n > other[i].time.n;
        }
        assert FirstFault(lines, i, TimeReversed);
        return Err(TimeReversed);
      }
      previous := Some(now);
      records := records + [lines[i].record];
      i := i + 1;
    }
    assert lines[..i] == lines;
    return Ok(records);
  }

  // --- The monitor -----------------------------------------------------------------

  predicate IsLoad(opcode: Opcode) {
    opcode.GETS? || opcode.GETM? || opcode.UPGRADE?
  }

  predicate Reply(x: Record, kind: Kind, snoop: Record) {
    && x.kind == kind && x.opcode.SNOOP_ACK?
    && x.snoopId == snoop.snoopId && x.line == snoop.line && x.session == snoop.session && x.epoch == snoop.epoch
    && x.ok && x.modelled && x.dirty && x.payload == Whole(64)
  }

  predicate ValidDirtyPath(request: Record, snoop: Record, ack: Record, completion: Record) {
    && snoop.line.Whole? && snoop.snoopId.Whole? && snoop.session.Whole? && snoop.epoch.Whole?
    && request.time.Whole? && snoop.time.Whole? && ack.time.Whole? && completion.time.Whole?
    && request.kind.Request? && IsLoad(request.opcode) && request.line == snoop.line
    && request.time.n <= snoop.time.n
    && snoop.kind.SnoopSend? && snoop.opcode.SNP_DATA_INV? && snoop.ok
    && Reply(ack, SnoopAck, snoop) && Reply(completion, DirtyCompletion, snoop)
    && snoop.time.n <= ack.time.n <= completion.time.n
  }

  /** A snoop of one of the lines.  The monitor does not look at its status here. */
  predicate IsSnoop(x: Record, lines: set<int>) {
    x.kind.SnoopSend? && x.opcode.SNP_DATA_INV? && x.line.Whole? && x.snoopId.Whole? && x.line.n in lines
  }

  predicate IsRequest(x: Record, line: int) {
    x.kind.Request? && IsLoad(x.opcode) && AsInt(x.line) == Some(line)
  }

  predicate IsReply(x: Record, kind: Kind, id: int) {
    x.kind == kind && AsInt(x.snoopId) == Some(id)
  }

  /** The last request for a line before place `n`, or -1. */
  function LastRequest(records: seq<Record>, n: nat, line: int): (r: int)
    requires n <= |records|
    ensures -1 <= r < n
    ensures r >= 0 ==> IsRequest(records[r], line)
    ensures forall i :: r < i < n ==> !IsRequest(records[i], line)
  {
    if n == 0 then -1
    else if IsRequest(records[n - 1], line) then n - 1
    else LastRequest(records, n - 1, line)
  }

  /** The first reply of a kind to a snoop from place `n` on, or the length. */
  function FirstReply(records: seq<Record>, n: nat, kind: Kind, id: int): (r: int)
    requires n <= |records|
    ensures n <= r <= |records|
    ensures r < |records| ==> IsReply(records[r], kind, id)
    ensures forall i :: n <= i < r ==> !IsReply(records[i], kind, id)
    decreases |records| - n
  {
    if n == |records| || IsReply(records[n], kind, id) then n
    else FirstReply(records, n + 1, kind, id)
  }

  /** Places in the trace. */
  datatype Quad = Quad(request: int, snoop: int, ack: int, completion: int)

  predicate InTrace(records: seq<Record>, q: Quad) {
    0 <= q.request < q.snoop < q.ack < |records| && q.snoop < q.completion < |records|
  }

  predicate Valid(records: seq<Record>, q: Quad)
  {
    && InTrace(records, q)
    && ValidDirtyPath(records[q.request], records[q.snoop], records[q.ack], records[q.completion])
  }

  /** The path that the monitor tries for the snoop at place `s`. */
  function Tried(records: seq<Record>, s: nat): Quad
    requires s < |records| && records[s].line.Whole? && records[s].snoopId.Whole?
  {
    var id := records[s].snoopId.n;
    Quad(LastRequest(records, s + 1, records[s].line.n), s,
         FirstReply(records, s + 1, SnoopAck, id), FirstReply(records, s + 1, DirtyCompletion, id))
  }

  predicate Found(records: seq<Record>, lines: set<int>, s: nat)
    requires s < |records|
  {
    IsSnoop(records[s], lines) && Valid(records, Tried(records, s))
  }

  datatype Path = Path(
    line: int, requestId: int, opcode: Opcode, requester: int, owner: int, snoopId: int, session: int, epoch: int,
    payload: int, requestTime: int, snoopTime: int, ackTime: int, completionTime: int)

  /** The fields of a path beyond those that make it valid. */
  predicate Reportable(records: seq<Record>, q: Quad)
    requires InTrace(records, q)
  {
    records[q.request].requestId.Whole? && records[q.request].source.Whole? && records[q.snoop].destination.Whole?
  }

  function Report(records: seq<Record>, q: Quad): Path
    requires Valid(records, q) && Reportable(records, q)
  {
    var r, s, a, c := records[q.request], records[q.snoop], records[q.ack], records[q.completion];
    Path(s.line.n, r.requestId.n, r.opcode, r.source.n, s.destination.n, s.snoopId.n, s.session.n, s.epoch.n,
         a.payload.n, r.time.n, s.time.n, a.time.n, c.time.n)
  }

  /** The cache line of an address: the multiple of 64 that it lies in. */
  function LineOf(address: nat): (line: int)
    ensures line % 64 == 0 && line <= address < line + 64
  {
    address / 64 * 64
  }

  function LinesOf(addresses: seq<int>): set<int>
    requires forall i :: 0 <= i < |addresses| ==> addresses[i] >= 0
  {
    set i | 0 <= i < |addresses| :: LineOf(addresses[i])
  }

  /** The paths tried and found to be valid, up to place `n`, in trace order. */
  function Quads(records: seq<Record>, lines: set<int>, n: nat): seq<Quad>
    requires n <= |records|
  {
    if n == 0 then []
    else Quads(records, lines, n - 1) + if Found(records, lines, n - 1) then [Tried(records, n - 1)] else []
  }

  predicate Hit(records: seq<Record>, lines: set<int>, q: Quad) {
    0 <= q.snoop < |records| && Found(records, lines, q.snoop) && q == Tried(records, q.snoop)
  }

  predicate AllHit(records: seq<Record>, lines: set<int>, quads: seq<Quad>) {
    forall k :: 0 <= k < |quads| ==> Hit(records, lines, quads[k])
  }

  lemma {:induction false} QuadsHit(records: seq<Record>, lines: set<int>, n: nat)
    requires n <= |records|
    ensures AllHit(records, lines, Quads(records, lines, n))
  {
    if n > 0 {
      QuadsHit(records, lines, n - 1);
    }
  }

  predicate CanReport(records: seq<Record>, lines: set<int>, q: Quad) {
    Hit(records, lines, q) && Reportable(records, q)
  }

  predicate AllReportable(records: seq<Record>, lines: set<int>, quads: seq<Quad>) {
    forall k :: 0 <= k < |quads| ==> CanReport(records, lines, quads[k])
  }

  /** The reports, in order. */
  function ReportAll(records: seq<Record>, lines: set<int>, quads: seq<Quad>): seq<Path>
    requires AllReportable(records, lines, quads)
  {
    seq(|quads|, k requires 0 <= k < |quads| => assert CanReport(records, lines, quads[k]); Report(records, quads[k]))
  }

  function LinesFound(records: seq<Record>, lines: set<int>, quads: seq<Quad>): set<int>
    requires AllHit(records, lines, quads)
  {
    set k | 0 <= k < |quads| :: assert Hit(records, lines, quads[k]); records[quads[k].snoop].line.n
  }

  lemma OneMoreQuad(records: seq<Record>, lines: set<int>, quads: seq<Quad>, q: Quad)
    requires AllReportable(records, lines, quads) && AllHit(records, lines, quads) && CanReport(records, lines, q)
    ensures AllReportable(records, lines, quads + [q]) && AllHit(records, lines, quads + [q])
    ensures ReportAll(records, lines, quads + [q]) == ReportAll(records, lines, quads) + [Report(records, q)]
    ensures LinesFound(records, lines, quads + [q]) == LinesFound(records, lines, quads) + {records[q.snoop].line.n}
  {
    var more := quads + [q];
    assert more[|quads|] == q;
    assert forall k :: 0 <= k < |quads| ==> more[k] == quads[k];
  }

  lemma {:induction false} QuadsGrow(records: seq<Record>, lines: set<int>, n: nat)
    requires n <= |records|
    ensures Quads(records, lines, n) <= Quads(records, lines, |records|)
    decreases |records| - n
  {
    if n < |records| {
      QuadsGrow(records, lines, n + 1);
    }
  }

  lemma QuadsHold(records: seq<Record>, lines: set<int>, s: nat)
    requires s < |records| && Found(records, lines, s)
    ensures Tried(records, s) in Quads(records, lines, |records|)
  {
    QuadsGrow(records, lines, s + 1);
    var k := |Quads(records, lines, s)|;
    assert Quads(records, lines, s + 1)[k] == Tried(records, s);
    assert Quads(records, lines, |records|)[k] == Tried(records, s);
  }

  lemma OneNotReportable(records: seq<Record>, lines: set<int>, s: nat)
    requires s < |records| && Found(records, lines, s) && !Reportable(records, Tried(records, s))
    ensures !AllReportable(records, lines, Quads(records, lines, |records|))
  {
    QuadsGrow(records, lines, s + 1);
    var quads := Quads(records, lines, |records|);
    var k := |Quads(records, lines, s)|;
    assert Quads(records, lines, s + 1)[k] == Tried(records, s);
    assert quads[k] == Tried(records, s) && !CanReport(records, lines, quads[k]);
  }

  /** The paths found, and the lines they complete; an error when a valid path lacks one
      of the other integers that it reports. */
  method FindPaths(records: seq<Record>, lines: set<int>) returns (r: Result<(seq<Path>, set<int>)>)
    ensures AllHit(records, lines, Quads(records, lines, |records|))
    ensures r.Ok? <==> AllReportable(records, lines, Quads(records, lines, |records|))
    ensures r.Ok? ==> r.value.0 == ReportAll(records, lines, Quads(records, lines, |records|))
    ensures r.Ok? ==> r.value.1 == LinesFound(records, lines, Quads(records, lines, |records|))
    ensures r.Err? ==> r.error.BadField?
  {
    var paths: seq<Path>, done: set<int> := [], {};
    QuadsHit(records, lines, |records|);
    var s := 0;
    while s < |records|
      invariant 0 <= s <= |records|
      invariant AllHit(records, lines, Quads(records, lines, s))
      invariant AllReportable(records, lines, Quads(records, lines, s))
      invariant paths == ReportAll(records, lines, Quads(records, lines, s))
      invariant done == LinesFound(records, lines, Quads(records, lines, s))
    {
      if Found(records, lines, s) {
        var q := Tried(records, s);
        ghost var quads := Quads(records, lines, s);
        assert Quads(records, lines, s + 1) == quads + [q];
        if !Reportable(records, q) {
          OneNotReportable(records, lines, s);
          return Err(BadField);
        }
        OneMoreQuad(records, lines, quads, q);
        paths, done := paths + [Report(records, q)], done + {records[s].line.n};
      } else {
        assert Quads(records, lines, s + 1) == Quads(records, lines, s);
      }
      s := s + 1;
    }
    return Ok((paths, done));
  }

  // --- The whole analysis ----------------------------------------------------------

  /** Puts a line into an increasing list. */
  function Insert(sorted: seq<int>, x: int): seq<int> {
    if sorted == [] || x < sorted[0] then [x] + sorted
    else if x == sorted[0] then sorted
    else [sorted[0]] + Insert(sorted[1..], x)
  }

  predicate Increasing(s: seq<int>) {
    forall i, j :: 0 <= i < j < |s| ==> s[i] < s[j]
  }

  lemma {:induction false} InsertKeeps(sorted: seq<int>, x: int)
    requires Increasing(sorted)
    ensures Increasing(Insert(sorted, x))
    ensures forall y :: y in Insert(sorted, x) <==> y in sorted || y == x
  {
    if sorted != [] && x > sorted[0] {
      InsertKeeps(sorted[1..], x);
      var rest := Insert(sorted[1..], x);
      forall j | 0 <= j < |rest|
        ensures sorted[0] < rest[j]
      {
        assert rest[j] in rest;
      }
      assert sorted == [sorted[0]] + sorted[1..];
    }
  }

  datatype Evidence = Evidence(complete: bool, targets: seq<int>, missing: seq<int>, counts: map<Kind, nat>, paths: seq<Path>)

  method TargetLines(addresses: seq<int>) returns (targets: seq<int>)
    requires forall i :: 0 <= i < |addresses| ==> addresses[i] >= 0
    ensures Increasing(targets) && forall x :: x in targets <==> x in LinesOf(addresses)
  {
    targets := [];
    var i := 0;
    while i < |addresses|
      invariant 0 <= i <= |addresses|
      invariant Increasing(targets) && forall x :: x in targets <==> x in LinesOf(addresses[..i])
    {
      InsertKeeps(targets, LineOf(addresses[i]));
      LinesOneMore(addresses, i);
      targets := Insert(targets, LineOf(addresses[i]));
      i := i + 1;
    }
    assert addresses[..i] == addresses;
  }

  lemma LinesOneMore(addresses: seq<int>, i: nat)
    requires i < |addresses| && forall i :: 0 <= i < |addresses| ==> addresses[i] >= 0
    ensures LinesOf(addresses[..i + 1]) == LinesOf(addresses[..i]) + {LineOf(addresses[i])}
  {
  }

  /** The elements of a list outside a set, in order. */
  function Outside(list: seq<int>, s: set<int>): (r: seq<int>)
    ensures forall x :: x in r <==> x in list && x !in s
  {
    if list == [] then []
    else
      assert list == [list[0]] + list[1..];
      (if list[0] in s then [] else [list[0]]) + Outside(list[1..], s)
  }

  lemma {:induction false} OutsideIncreases(list: seq<int>, s: set<int>)
    requires Increasing(list)
    ensures Increasing(Outside(list, s))
  {
    if list != [] {
      OutsideIncreases(list[1..], s);
      var rest := Outside(list[1..], s);
      forall j | 0 <= j < |rest|
        ensures list[0] < rest[j]
      {
        assert rest[j] in rest && rest[j] in list[1..];
      }
    }
  }

  /** How many records have an event. */
  function CountOf(records: seq<Record>, kind: Kind): nat {
    if records == [] then 0
    else CountOf(records[..|records| - 1], kind) + if records[|records| - 1].kind == kind then 1 else 0
  }

  /** The counts of the events that occur, those without text left out. */
  ghost predicate Counts(counts: map<Kind, nat>, records: seq<Record>) {
    && (forall k :: k in counts <==> k != NotText && CountOf(records, k) > 0)
    && forall k :: k in counts ==> counts[k] == CountOf(records, k)
  }

  lemma CountSnoc(records: seq<Record>, r: Record, kind: Kind)
    ensures CountOf(records + [r], kind) == CountOf(records, kind) + if r.kind == kind then 1 else 0
  {
    assert (records + [r])[..|records|] == records;
  }

  method CountEvents(records: seq<Record>) returns (counts: map<Kind, nat>)
    ensures Counts(counts, records)
  {
    counts := map[];
    var i := 0;
    while i < |records|
      invariant 0 <= i <= |records|
      invariant Counts(counts, records[..i])
    {
      var kind := records[i].kind;
      assert records[..i + 1] == records[..i] + [records[i]];
      forall k: Kind
        ensures CountOf(records[..i + 1], k) == CountOf(records[..i], k) + if kind == k then 1 else 0
      {
        CountSnoc(records[..i], records[i], k);
      }
      if kind != NotText {
        counts := counts[kind := (if kind in counts then counts[kind] else 0) + 1];
      }
      i := i + 1;
    }
    assert records[..i] == records;
  }

  /** What the evidence says about a trace, given the target lines. */
  ghost predicate Says(e: Evidence, records: seq<Record>, lines: set<int>) {
    var quads := Quads(records, lines, |records|);
    && Increasing(e.targets) && (forall x :: x in e.targets <==> x in lines)
    && AllReportable(records, lines, quads) && e.paths == ReportAll(records, lines, quads)
    && (e.complete <==> e.paths != [])
    && AllHit(records, lines, quads)
    && Increasing(e.missing) && (forall x :: x in e.missing <==> x in lines && x !in LinesFound(records, lines, quads))
    && Counts(e.counts, records)
  }

  method AnalyzeTrace(records: seq<Record>, addresses: seq<int>) returns (r: Result<Evidence>)
    ensures r.Ok? <==>
              && addresses != [] && (forall i :: 0 <= i < |addresses| ==> addresses[i] >= 0)
              && AllReportable(records, LinesOf(addresses), Quads(records, LinesOf(addresses), |records|))
    ensures r.Ok? ==> Says(r.value, records, LinesOf(addresses))
    ensures r.Err? ==>
              && (r.error.NoTarget? <==> addresses == [])
              && (r.error.BadTarget? <==> exists i :: 0 <= i < |addresses| && addresses[i] < 0)
              && (r.error.BadField? <==> addresses != [] && forall i :: 0 <= i < |addresses| ==> addresses[i] >= 0)
  {
    if addresses == [] {
      return Err(NoTarget);
    }
    if exists i :: 0 <= i < |addresses| && addresses[i] < 0 {
      return Err(BadTarget);
    }
    var targets := TargetLines(addresses);
    var counts := CountEvents(records);
    var found := FindPaths(records, LinesOf(addresses));
    if found.Err? {
      return Err(found.error);
    }
    var paths, done := found.value.0, found.value.1;
    OutsideIncreases(targets, done);
    return Ok(Evidence(paths != [], targets, Outside(targets, done), counts, paths));
  }

  /** The first path from one host to another, or nothing where the source raises. */
  method RequireHandoff(paths: seq<Path>, owner: int, requester: int) returns (r: Option<Path>)
    ensures r.None? ==> forall p :: p in paths ==> p.owner != owner || p.requester != requester
    ensures r.Some? ==>
              exists k :: 0 <= k < |paths| && paths[k] == r.value && Handoff(paths[k], owner, requester)
                          && forall j :: 0 <= j < k ==> !Handoff(paths[j], owner, requester)
  {
    var k := 0;
    while k < |paths|
      invariant 0 <= k <= |paths| && forall j :: 0 <= j < k ==> !Handoff(paths[j], owner, requester)
    {
      if paths[k].owner == owner && paths[k].requester == requester {
        return Some(paths[k]);
      }
      k := k + 1;
    }
    return None;
  }

  predicate Handoff(p: Path, owner: int, requester: int) {
    p.owner == owner && p.requester == requester
  }
}
