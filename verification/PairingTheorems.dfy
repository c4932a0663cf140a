/** An accepted interval with any completion pairs its requests and completions one to
    one, and the counts agree. */
module PairingTheorems {
  import opened Options
  import opened JsonFields
  import opened PairingModel
  import opened Permutations

  /** The records of an interval, ends included. */
  lemma {:induction false} SelectedExactly(records: seq<Record>, event: Event, w: Interval, r: Record)
    ensures r in Select(records, event, w) <==>
              r in records && r.event == event && r.opcode.Known? && r.time.Some? && w.start <= r.time.value <= w.end
  {
    if records != [] {
      SelectedExactly(records[..|records| - 1], event, w, r);
      assert records == records[..|records| - 1] + [records[|records| - 1]];
    }
  }

  /** The completion belongs to the request: fields equal to its integers, the same opcode,
      not before it, with status OK and a positive duration. */
  predicate Belongs(c: Record, r: Record) {
    && r.host.Whole? && r.session.Whole? && r.id.Whole?
    && AsInt(c.host) == Some(r.host.n) && AsInt(c.session) == Some(r.session.n) && AsInt(c.id) == Some(r.id.n)
    && c.opcode == r.opcode && c.time.Some? && r.time.Some? && r.time.value <= c.time.value
    && c.duration.Some? && c.duration.value >= 1 && c.ok
  }

  /** Requests have integers as host, session and identifier, no two the same three. */
  predicate Proper(rs: seq<Record>) {
    && (forall i :: 0 <= i < |rs| ==> rs[i].host.Whole? && rs[i].session.Whole? && rs[i].id.Whole?)
    && forall i, j :: 0 <= i < j < |rs| ==> rs[i].host != rs[j].host || rs[i].session != rs[j].session || rs[i].id != rs[j].id
  }

  lemma BelongsExactly(c: Record, r: Record)
    ensures Belongs(c, r) <==> Answers(c, r) && Sample(c)
  {
  }

  lemma ProperExactly(rs: seq<Record>)
    ensures Proper(rs) <==> GoodRequests(rs)
  {
  }

  /** Completion `i` belongs to request `m[i]`; every request has one. */
  ghost predicate Bijection(m: seq<int>, rs: seq<Record>, cs: seq<Record>) {
    && |m| == |cs|
    && (forall i :: 0 <= i < |m| ==> 0 <= m[i] < |rs| && Belongs(cs[i], rs[m[i]]))
    && Distinct(m)
    && forall j :: 0 <= j < |rs| ==> j in m
  }

  ghost function Partner(rs: seq<Record>, c: Record): (j: nat)
    requires Answered(rs, c)
    ensures j < |rs| && Answers(c, rs[j])
  {
    var j :| 0 <= j < |rs| && Answers(c, rs[j]);
    j
  }

  lemma PartnersDiffer(rs: seq<Record>, cs: seq<Record>, i: nat, j: nat)
    requires GoodCompletions(rs, cs) && i < j < |cs|
    ensures Partner(rs, cs[i]) != Partner(rs, cs[j])
  {
  }

  lemma PartnerOf(rs: seq<Record>, cs: seq<Record>, j: nat) returns (i: nat)
    requires GoodRequests(rs) && GoodCompletions(rs, cs) && AllAnswered(rs, cs) && j < |rs|
    ensures i < |cs| && Partner(rs, cs[i]) == j
  {
    assert Completed(rs[j], cs);
    i :| 0 <= i < |cs| && Answers(cs[i], rs[j]);
    var p := Partner(rs, cs[i]);
    assert StrictKey(rs[p]) == StrictKey(rs[j]);
  }

  lemma BijectionExists(rs: seq<Record>, cs: seq<Record>) returns (m: seq<int>)
    requires GoodRequests(rs) && GoodCompletions(rs, cs) && AllAnswered(rs, cs)
    ensures Bijection(m, rs, cs)
  {
    m := seq(|cs|, i requires 0 <= i < |cs| => Partner(rs, cs[i]));
    forall i, j | 0 <= i < j < |m|
      ensures m[i] != m[j]
    {
      PartnersDiffer(rs, cs, i, j);
    }
    forall i | 0 <= i < |m|
      ensures 0 <= m[i] < |rs| && Belongs(cs[i], rs[m[i]])
    {
      BelongsExactly(cs[i], rs[m[i]]);
    }
    forall j | 0 <= j < |rs|
      ensures j in m
    {
      var i := PartnerOf(rs, cs, j);
      assert m[i] == j;
    }
  }

  lemma BijectionSuffices(rs: seq<Record>, cs: seq<Record>, m: seq<int>)
    requires GoodRequests(rs) && Bijection(m, rs, cs)
    ensures GoodCompletions(rs, cs) && AllAnswered(rs, cs)
  {
    forall i | 0 <= i < |cs|
      ensures Sample(cs[i]) && Answers(cs[i], rs[m[i]]) && Answered(rs, cs[i])
    {
      BelongsExactly(cs[i], rs[m[i]]);
    }
    forall j | 0 <= j < |rs|
      ensures Completed(rs[j], cs)
    {
      assert j in m;
      var i :| 0 <= i < |m| && m[i] == j;
      assert Answers(cs[i], rs[j]);
    }
  }

  /** A trace with completions in the interval has a timing exactly when its opcodes can be
      read, its requests are proper, and requests and completions correspond one to one. */
  lemma AcceptedExactly(records: seq<Record>, w: Interval)
    requires Select(records, Completion, w) != []
    ensures var rs, cs := Select(records, Request, w), Select(records, Completion, w);
            Accepted(records, w) <==>
              && OpcodesReadable(records, Request) && OpcodesReadable(records, Completion)
              && Proper(rs) && exists m :: Bijection(m, rs, cs)
  {
    var rs, cs := Select(records, Request, w), Select(records, Completion, w);
    ProperExactly(rs);
    if Accepted(records, w) {
      var m := BijectionExists(rs, cs);
    }
    if Proper(rs) && exists m :: Bijection(m, rs, cs) {
      var m :| Bijection(m, rs, cs);
      BijectionSuffices(rs, cs, m);
    }
  }

  // --- Counting --------------------------------------------------------------------

  /** Records of one opcode, or all of them. */
  predicate Chosen(r: Record, op: Option<Opcode>) {
    op.None? || r.opcode == Known(op.value)
  }

  function Pick(rs: seq<Record>, op: Option<Opcode>): seq<Record> {
    if op.None? then rs else OfOpcode(rs, op.value)
  }

  /** Counts a record chosen from `rs` by its index. */
  function Tick(rs: seq<Record>, op: Option<Opcode>): (int, int) -> int {
    (n: int, j: int) => n + if 0 <= j < |rs| && Chosen(rs[j], op) then 1 else 0
  }

  lemma TickCommutes(rs: seq<Record>, op: Option<Opcode>)
    ensures Commutes(Tick(rs, op))
  {
  }

  /** Counting the chosen of `cs`, of which each is chosen with its place in `rs`. */
  lemma {:induction false} PickCount(rs: seq<Record>, cs: seq<Record>, m: seq<int>, op: Option<Opcode>)
    requires |m| == |cs|
    requires forall i :: 0 <= i < |m| ==> 0 <= m[i] < |rs| && cs[i].opcode == rs[m[i]].opcode
    ensures |Pick(cs, op)| == Fold(Tick(rs, op), 0, m)
    decreases |cs|
  {
    if cs != [] {
      PickCount(rs, cs[..|cs| - 1], m[..|m| - 1], op);
    }
  }

  lemma CountsAgree(m: seq<int>, rs: seq<Record>, cs: seq<Record>, op: Option<Opcode>)
    requires Bijection(m, rs, cs)
    ensures |Pick(rs, op)| == |Pick(cs, op)|
  {
    IndicesPermute(m, |rs|);
    TickCommutes(rs, op);
    FoldPermutation(Tick(rs, op), 0, m, Range(|rs|));
    PickCount(rs, cs, m, op);
    PickCount(rs, rs, Range(|rs|), op);
  }

  lemma {:induction false} OpcodesCoverAll(cs: seq<Record>)
    requires forall i :: 0 <= i < |cs| ==> cs[i].opcode.Known?
    ensures |OfOpcode(cs, GETS)| + |OfOpcode(cs, GETM)| + |OfOpcode(cs, UPGRADE)| + |OfOpcode(cs, PUTM)| == |cs|
  {
    if cs != [] {
      OpcodesCoverAll(cs[..|cs| - 1]);
      var op := cs[|cs| - 1].opcode.op;
      assert op == GETS || op == GETM || op == UPGRADE || op == PUTM;
    }
  }

  ghost predicate CountsMatch(rs: seq<Record>, cs: seq<Record>, samples: map<Opcode, seq<int>>) {
    && |rs| == |cs|
    && forall op :: op in samples && |OfOpcode(rs, op)| == |OfOpcode(cs, op)| == |samples[op]|
  }

  lemma SamplesCover(cs: seq<Record>, samples: map<Opcode, seq<int>>)
    requires Sampled(samples, cs) && forall i :: 0 <= i < |cs| ==> cs[i].opcode.Known?
    ensures GETS in samples && GETM in samples && UPGRADE in samples && PUTM in samples
    ensures |samples[GETS]| + |samples[GETM]| + |samples[UPGRADE]| + |samples[PUTM]| == |cs|
  {
    OpcodesCoverAll(cs);
    assert GETS in samples && GETM in samples && UPGRADE in samples && PUTM in samples;
  }

  lemma AllCountsAgree(m: seq<int>, rs: seq<Record>, cs: seq<Record>, samples: map<Opcode, seq<int>>)
    requires Bijection(m, rs, cs) && Sampled(samples, cs)
    ensures CountsMatch(rs, cs, samples)
  {
    CountsAgree(m, rs, cs, None);
    forall op: Opcode
      ensures op in samples && |OfOpcode(rs, op)| == |OfOpcode(cs, op)| == |samples[op]|
    {
      CountsAgree(m, rs, cs, Some(op));
    }
  }

  /** Of an accepted interval with a completion: requests and completions correspond one
      to one, with equal identity and opcode and no completion before its request; and
      there are as many of one as of the other, and as many as samples, for each opcode
      and in all. */
  lemma PairingIsOneToOne(records: seq<Record>, w: Interval, samples: map<Opcode, seq<int>>) returns (m: seq<int>)
    requires Accepted(records, w) && Select(records, Completion, w) != []
    requires Sampled(samples, Select(records, Completion, w))
    ensures Bijection(m, Select(records, Request, w), Select(records, Completion, w))
    ensures CountsMatch(Select(records, Request, w), Select(records, Completion, w), samples)
    ensures GETS in samples && GETM in samples && UPGRADE in samples && PUTM in samples
    ensures |samples[GETS]| + |samples[GETM]| + |samples[UPGRADE]| + |samples[PUTM]|
            == |Select(records, Completion, w)|
  {
    var rs, cs := Select(records, Request, w), Select(records, Completion, w);
    m := BijectionExists(rs, cs);
    AllCountsAgree(m, rs, cs, samples);
    SamplesCover(cs, samples);
  }

  /** An interval without completions is accepted whenever its requests are well formed,
      however many of them were never completed. */
  lemma NoCompletionsNoBalance(records: seq<Record>, w: Interval)
    requires OpcodesReadable(records, Completion) && Select(records, Completion, w) == []
    ensures Accepted(records, w) <==> OpcodesReadable(records, Request) && Proper(Select(records, Request, w))
  {
    ProperExactly(Select(records, Request, w));
  }
}
