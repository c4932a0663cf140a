/** What the dirty-path monitor reports is there, and when it misses nothing. */
module DirtyPathTheorems {
  import opened Options
  import opened JsonFields
  import opened DirtyPath

  /** A dirty hand-over, spelled out: a load of the line, a snoop of it that was sent, and
      after the snoop its acknowledgement and its completion, both fine, modelled and with
      64 bytes of dirty data; times in order; one line, one snoop, one session, one epoch. */
  predicate HandsOver(
    records: seq<Record>, q: Quad, line: int, snoopId: int, session: int, epoch: int, t0: int, t1: int, t2: int, t3: int)
  {
    && 0 <= q.request < q.snoop < q.ack < |records| && q.snoop < q.completion < |records|
    && var r, s, a, c := records[q.request], records[q.snoop], records[q.ack], records[q.completion];
    && r.kind == Request && r.opcode in {GETS, GETM, UPGRADE}
    && s.kind == SnoopSend && s.opcode == SNP_DATA_INV && s.ok
    && a.kind == SnoopAck && a.opcode == SNOOP_ACK && a.ok && a.modelled && a.dirty && a.payload == Whole(64)
    && c.kind == DirtyCompletion && c.opcode == SNOOP_ACK && c.ok && c.modelled && c.dirty && c.payload == Whole(64)
    && r.line == s.line == a.line == c.line == Whole(line)
    && s.snoopId == a.snoopId == c.snoopId == Whole(snoopId)
    && s.session == a.session == c.session == Whole(session)
    && s.epoch == a.epoch == c.epoch == Whole(epoch)
    && r.time == Whole(t0) && s.time == Whole(t1) && a.time == Whole(t2) && c.time == Whole(t3)
    && t0 <= t1 <= t2 <= t3
  }

  /** The places hold a dirty hand-over. */
  ghost predicate IsHandover(records: seq<Record>, q: Quad) {
    exists line, snoopId, session, epoch, t0, t1, t2, t3 ::
      HandsOver(records, q, line, snoopId, session, epoch, t0, t1, t2, t3)
  }

  lemma ValidExactly(records: seq<Record>, q: Quad)
    ensures Valid(records, q) <==> IsHandover(records, q)
  {
    if Valid(records, q) {
      var r, s, a, c := records[q.request], records[q.snoop], records[q.ack], records[q.completion];
      assert HandsOver(records, q, s.line.n, s.snoopId.n, s.session.n, s.epoch.n, r.time.n, s.time.n, a.time.n, c.time.n);
    }
  }

  /** Every reported path is there: its fields are those of a dirty hand-over of a target
      line, from the host that the snoop went to, to the host that asked. */
  lemma PathsAreThere(records: seq<Record>, lines: set<int>, quads: seq<Quad>, k: nat)
    requires AllReportable(records, lines, quads) && k < |quads|
    ensures Matches(records, lines, quads[k], ReportAll(records, lines, quads)[k])
  {
    assert CanReport(records, lines, quads[k]);
  }

  predicate Matches(records: seq<Record>, lines: set<int>, q: Quad, p: Path) {
    && HandsOver(records, q, p.line, p.snoopId, p.session, p.epoch, p.requestTime, p.snoopTime, p.ackTime, p.completionTime)
    && p.line in lines && p.payload == 64
    && records[q.request].requestId == Whole(p.requestId) && records[q.request].opcode == p.opcode
    && records[q.request].source == Whole(p.requester) && records[q.snoop].destination == Whole(p.owner)
  }

  /** A hand-over that was required and found is in the trace: the request came from the
      requester, and the snoop of its line went to the owner. */
  lemma HandoffIsThere(records: seq<Record>, lines: set<int>, quads: seq<Quad>, owner: int, requester: int, p: Path)
    returns (q: Quad)
    requires AllReportable(records, lines, quads) && p in ReportAll(records, lines, quads) && Handoff(p, owner, requester)
    ensures IsHandover(records, q) && 0 <= q.request < q.snoop < |records|
    ensures records[q.request].source == Whole(requester) && records[q.snoop].destination == Whole(owner)
  {
    var k :| 0 <= k < |quads| && ReportAll(records, lines, quads)[k] == p;
    q := quads[k];
    PathsAreThere(records, lines, quads, k);
  }

  // --- Completeness ----------------------------------------------------------------

  /** At most one reply of a kind to any snoop. */
  ghost predicate OneReply(records: seq<Record>, kind: Kind) {
    forall i, j, id :: 0 <= i < j < |records| && IsReply(records[i], kind, id) ==> !IsReply(records[j], kind, id)
  }

  ghost predicate HasPath(records: seq<Record>, s: int) {
    exists q: Quad :: q.snoop == s && IsHandover(records, q)
  }

  /** The last request that names the line of the snoop names it by an integer. */
  predicate PlainLast(records: seq<Record>, s: nat)
    requires s < |records| && records[s].line.Whole?
  {
    var last := LastRequest(records, s + 1, records[s].line.n);
    last >= 0 && records[last].line.Whole?
  }

  /** Of a snoop for a target line, in a trace with single replies: it is reported exactly
      when it has a valid path and the last request that names its line names it by an
      integer. */
  lemma FoundExactly(records: seq<Record>, lines: set<int>, s: nat)
    requires Ordered(records) && OneReply(records, SnoopAck) && OneReply(records, DirtyCompletion)
    requires s < |records| && IsSnoop(records[s], lines)
    ensures Found(records, lines, s) <==> HasPath(records, s) && PlainLast(records, s)
  {
    if Found(records, lines, s) {
      ValidExactly(records, Tried(records, s));
    }
    if HasPath(records, s) && PlainLast(records, s) {
      var q: Quad :| q.snoop == s && IsHandover(records, q);
      ValidExactly(records, q);
      PathIsTried(records, lines, s, q);
    }
  }

  /** With single replies, any path of the snoop has the replies that the monitor takes. */
  lemma SingleReplies(records: seq<Record>, q: Quad)
    requires OneReply(records, SnoopAck) && OneReply(records, DirtyCompletion) && Valid(records, q)
    ensures var id := records[q.snoop].snoopId.n;
            && q.ack == FirstReply(records, q.snoop + 1, SnoopAck, id)
            && q.completion == FirstReply(records, q.snoop + 1, DirtyCompletion, id)
  {
  }

  /** Another load of the line before the snoop does as well. */
  lemma OtherRequest(r: Record, other: Record, snoop: Record, ack: Record, completion: Record)
    requires ValidDirtyPath(r, snoop, ack, completion)
    requires other.kind.Request? && IsLoad(other.opcode) && other.line == snoop.line
    requires other.time.Whole? && other.time.n <= snoop.time.n
    ensures ValidDirtyPath(other, snoop, ack, completion)
  {
  }

  /** The last request before the snoop. */
  lemma LastIsBefore(records: seq<Record>, s: nat, x: int)
    requires Ordered(records) && s < |records| && !records[s].kind.Request? && LastRequest(records, s + 1, x) >= 0
    ensures var l := LastRequest(records, s + 1, x);
            l < s && IsRequest(records[l], x) && records[l].time.Whole? && records[s].time.Whole?
            && records[l].time.n <= records[s].time.n
  {
  }

  lemma PathIsTried(records: seq<Record>, lines: set<int>, s: nat, q: Quad)
    requires Ordered(records) && OneReply(records, SnoopAck) && OneReply(records, DirtyCompletion)
    requires s < |records| && IsSnoop(records[s], lines) && PlainLast(records, s) && q.snoop == s && Valid(records, q)
    ensures Found(records, lines, s)
  {
    SingleReplies(records, q);
    LastIsBefore(records, s, records[s].line.n);
    var l := LastRequest(records, s + 1, records[s].line.n);
    OtherRequest(records[q.request], records[l], records[s], records[q.ack], records[q.completion]);
    assert Tried(records, s) == Quad(l, s, q.ack, q.completion);
  }

  lemma HeldLineIsFound(records: seq<Record>, lines: set<int>, quads: seq<Quad>, q: Quad)
    requires AllHit(records, lines, quads) && q in quads
    ensures 0 <= q.snoop < |records| && records[q.snoop].line.Whole?
    ensures records[q.snoop].line.n in LinesFound(records, lines, quads)
  {
  }

  lemma FoundLineHasSnoop(records: seq<Record>, lines: set<int>, quads: seq<Quad>, x: int) returns (s: nat)
    requires AllHit(records, lines, quads) && x in LinesFound(records, lines, quads)
    ensures s < |records| && Found(records, lines, s) && records[s].line == Whole(x)
  {
    var k :| 0 <= k < |quads| && records[quads[k].snoop].line.n == x;
    s := quads[k].snoop;
    assert Hit(records, lines, quads[k]);
  }

  /** A snoop of a line that has a valid path, with an integer in the last request. */
  ghost predicate Plain(records: seq<Record>, lines: set<int>, s: nat, x: int) {
    && s < |records| && IsSnoop(records[s], lines) && records[s].line == Whole(x)
    && HasPath(records, s) && PlainLast(records, s)
  }

  ghost predicate LineHasPath(records: seq<Record>, x: int) {
    exists q: Quad :: IsHandover(records, q) && 0 <= q.snoop < |records| && records[q.snoop].line == Whole(x)
  }

  /** The lines that the monitor completes. */
  ghost predicate Completed(records: seq<Record>, lines: set<int>, x: int) {
    var quads := Quads(records, lines, |records|);
    AllHit(records, lines, quads) && x in LinesFound(records, lines, quads)
  }

  /** A line is completed exactly when one of its snoops has a valid path and an integer in
      the last request for the line. */
  lemma LineFoundExactly(records: seq<Record>, lines: set<int>, x: int)
    requires Ordered(records) && OneReply(records, SnoopAck) && OneReply(records, DirtyCompletion)
    ensures Completed(records, lines, x) <==> exists s :: Plain(records, lines, s, x)
  {
    var quads := Quads(records, lines, |records|);
    QuadsHit(records, lines, |records|);
    if x in LinesFound(records, lines, quads) {
      var s := FoundLineHasSnoop(records, lines, quads, x);
      FoundExactly(records, lines, s);
      assert Plain(records, lines, s, x);
    }
    if s :| Plain(records, lines, s, x) {
      FoundExactly(records, lines, s);
      QuadsHold(records, lines, s);
      HeldLineIsFound(records, lines, quads, Tried(records, s));
    }
  }

  /** So the monitor is right about a target line, completed if and only if it has a valid
      path, exactly when it has none or one that is not hidden. */
  lemma RightExactly(records: seq<Record>, lines: set<int>, x: int)
    requires Ordered(records) && OneReply(records, SnoopAck) && OneReply(records, DirtyCompletion)
    requires x in lines
    ensures (Completed(records, lines, x) <==> LineHasPath(records, x))
            <==> (LineHasPath(records, x) ==> exists s :: Plain(records, lines, s, x))
  {
    LineFoundExactly(records, lines, x);
    if s :| Plain(records, lines, s, x) {
      var q: Quad :| q.snoop == s && IsHandover(records, q);
    }
  }

  /** No request names a line by a number that is not an integer. */
  predicate PlainRequests(records: seq<Record>) {
    forall i :: 0 <= i < |records| && records[i].kind == Request && AsInt(records[i].line).Some? ==>
                  records[i].line.Whole?
  }

  lemma PathIsPlain(records: seq<Record>, lines: set<int>, q: Quad, x: int)
    requires PlainRequests(records) && x in lines && Valid(records, q) && records[q.snoop].line == Whole(x)
    ensures Plain(records, lines, q.snoop, x)
  {
    ValidExactly(records, q);
    assert IsRequest(records[q.request], x);
    assert LastRequest(records, q.snoop + 1, x) >= q.request;
  }

  /** In particular it is right about every line when requests name lines by integers. */
  lemma RightIfPlain(records: seq<Record>, lines: set<int>, x: int)
    requires Ordered(records) && OneReply(records, SnoopAck) && OneReply(records, DirtyCompletion)
    requires PlainRequests(records) && x in lines
    ensures Completed(records, lines, x) <==> LineHasPath(records, x)
  {
    RightExactly(records, lines, x);
    if LineHasPath(records, x) {
      var q: Quad :| IsHandover(records, q) && 0 <= q.snoop < |records| && records[q.snoop].line == Whole(x);
      ValidExactly(records, q);
      PathIsPlain(records, lines, q, x);
    }
  }

  // --- A trace where a path is missed ----------------------------------------------

  function Blank(kind: Kind, opcode: Opcode, time: int, line: Field): Record {
    Record(kind, opcode, Whole(time), line, Whole(7), Whole(1), Whole(1), Whole(64), true, true, true,
           Whole(0), Whole(0), Whole(0))
  }

  /** Two requests for one line, the second naming it by `f`, and the hand-over. */
  function Shadowed(x: int, f: Field): seq<Record> {
    [Blank(Request, GETS, 0, Whole(x)), Blank(Request, GETS, 1, f), Blank(SnoopSend, SNP_DATA_INV, 2, Whole(x)),
     Blank(SnoopAck, SNOOP_ACK, 3, Whole(x)), Blank(DirtyCompletion, SNOOP_ACK, 4, Whole(x))]
  }

  /** Fields that equal an integer without being one: 64.0, and the truth values. */
  lemma EqualFields()
    ensures AsInt(Decimal(64.0)) == Some(64) && AsInt(Truth(false)) == Some(0) && AsInt(Truth(true)) == Some(1)
  {
  }

  /** A request that names the line by such a field hides the valid path of the one before
      it. */
  lemma PathIsMissed(x: int, f: Field)
    requires AsInt(f) == Some(x) && !f.Whole?
    ensures Ordered(Shadowed(x, f)) && OneReply(Shadowed(x, f), SnoopAck) && OneReply(Shadowed(x, f), DirtyCompletion)
    ensures Valid(Shadowed(x, f), Quad(0, 2, 3, 4)) && IsSnoop(Shadowed(x, f)[2], {x})
    ensures !Completed(Shadowed(x, f), {x}, x) && LineHasPath(Shadowed(x, f), x)
  {
    var records := Shadowed(x, f);
    assert IsRequest(records[1], x);
    assert LastRequest(records, 3, x) == 1;
    assert Valid(records, Quad(0, 2, 3, 4));
    ValidExactly(records, Quad(0, 2, 3, 4));
    OnlySnoop(x, f);
  }

  lemma OnlySnoop(x: int, f: Field)
    requires AsInt(f) == Some(x) && !f.Whole? && Ordered(Shadowed(x, f))
    requires OneReply(Shadowed(x, f), SnoopAck) && OneReply(Shadowed(x, f), DirtyCompletion)
    requires LastRequest(Shadowed(x, f), 3, x) == 1
    ensures !Completed(Shadowed(x, f), {x}, x)
  {
    LineFoundExactly(Shadowed(x, f), {x}, x);
    forall s
      ensures !Plain(Shadowed(x, f), {x}, s, x)
    {
    }
  }
}
