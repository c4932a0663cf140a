/** Pairing the requests and completions of a coherence trace interval. */
module PairingModel {
  import opened Options
  import opened JsonFields

  datatype Opcode = GETS | GETM | UPGRADE | PUTM

  /** A record's opcode field: one of the four, another value, or one that cannot be
      looked up at all. */
  datatype OpcodeField = Known(op: Opcode) | Unknown | BadOpcode

  datatype Event = Request | Completion | OtherEvent

  /** `time` is there for integers, a boolean counting as 0 or 1; `duration` for integers
      that are not booleans; `ok` says that the status is OK. */
  datatype Record = Record(
    event: Event, opcode: OpcodeField, time: Option<int>, host: Field, session: Field, id: Field,
    duration: Option<int>, ok: bool)

  datatype Key = Key(host: int, session: int, id: int)

  datatype Interval = Interval(start: int, end: int)

  datatype Error =
    | TypeError | MalformedRequest | DuplicateRequest | NoRequest | DuplicateCompletion | BadDuration
    | FailedOperation | PrecedesRequest | Imbalanced

  datatype Timing = Timing(requestCount: nat, completionCount: nat, samples: map<Opcode, seq<int>>)

  datatype Result = Ok(timing: Timing) | Err(error: Error)

  /** An identity made of proper integers, as a request must have. */
  function StrictKey(r: Record): Option<Key> {
    if r.host.Whole? && r.session.Whole? && r.id.Whole? then Some(Key(r.host.n, r.session.n, r.id.n)) else None
  }

  /** The identity that a lookup with these fields finds. */
  function LooseKey(r: Record): Option<Key> {
    if AsInt(r.host).Some? && AsInt(r.session).Some? && AsInt(r.id).Some?
    then Some(Key(AsInt(r.host).value, AsInt(r.session).value, AsInt(r.id).value)) else None
  }

  predicate Hashable(r: Record) {
    !r.host.Unhashable? && !r.session.Unhashable? && !r.id.Unhashable?
  }

  predicate Inside(r: Record, event: Event, w: Interval) {
    r.event == event && r.opcode.Known? && r.time.Some? && w.start <= r.time.value <= w.end
  }

  /** The records of one event that lie in the interval. */
  function Select(records: seq<Record>, event: Event, w: Interval): (s: seq<Record>)
    ensures forall i :: 0 <= i < |s| ==> Inside(s[i], event, w)
  {
    if records == [] then []
    else Select(records[..|records| - 1], event, w)
         + if Inside(records[|records| - 1], event, w) then [records[|records| - 1]] else []
  }

  predicate OpcodesReadable(records: seq<Record>, event: Event) {
    forall i :: 0 <= i < |records| && records[i].event == event ==> !records[i].opcode.BadOpcode?
  }

  /** Requests have proper and distinct identities. */
  predicate GoodRequests(rs: seq<Record>) {
    && (forall i :: 0 <= i < |rs| ==> StrictKey(rs[i]).Some?)
    && forall i, j :: 0 <= i < j < |rs| ==> StrictKey(rs[i]) != StrictKey(rs[j])
  }

  /** `c` completes `r`. */
  predicate Answers(c: Record, r: Record) {
    && StrictKey(r).Some? && LooseKey(c) == StrictKey(r) && c.opcode == r.opcode
    && c.time.Some? && r.time.Some? && r.time.value <= c.time.value
  }

  predicate Sample(c: Record) {
    Hashable(c) && c.duration.Some? && c.duration.value > 0 && c.ok
  }

  predicate Answered(rs: seq<Record>, c: Record) {
    exists j :: 0 <= j < |rs| && Answers(c, rs[j])
  }

  /** Completions are samples of requests in the interval, each of another one. */
  predicate GoodCompletions(rs: seq<Record>, cs: seq<Record>) {
    && (forall i :: 0 <= i < |cs| ==> Sample(cs[i]) && Answered(rs, cs[i]))
    && forall i, j :: 0 <= i < j < |cs| ==> LooseKey(cs[i]) != LooseKey(cs[j])
  }

  predicate Completed(r: Record, cs: seq<Record>) {
    exists i :: 0 <= i < |cs| && Answers(cs[i], r)
  }

  predicate AllAnswered(rs: seq<Record>, cs: seq<Record>) {
    forall j :: 0 <= j < |rs| ==> Completed(rs[j], cs)
  }

  /** The traces that have a timing: an interval without any completion, or one in which
      requests and completions belong together. */
  predicate Accepted(records: seq<Record>, w: Interval) {
    var rs, cs := Select(records, Request, w), Select(records, Completion, w);
    && OpcodesReadable(records, Request) && OpcodesReadable(records, Completion)
    && GoodRequests(rs) && GoodCompletions(rs, cs) && (cs != [] ==> AllAnswered(rs, cs))
  }

  function OfOpcode(rs: seq<Record>, op: Opcode): (s: seq<Record>)
    ensures forall i :: 0 <= i < |s| ==> s[i] in rs && s[i].opcode == Known(op)
  {
    if rs == [] then []
    else OfOpcode(rs[..|rs| - 1], op) + if rs[|rs| - 1].opcode == Known(op) then [rs[|rs| - 1]] else []
  }

  function Durations(cs: seq<Record>): seq<int> {
    seq(|cs|, i requires 0 <= i < |cs| => if cs[i].duration.Some? then cs[i].duration.value else 0)
  }

  // --- The two passes --------------------------------------------------------------

  /** The dictionary of requests by identity. */
  ghost predicate Indexed(requests: map<Key, Record>, rs: seq<Record>) {
    && (forall i :: 0 <= i < |rs| ==> StrictKey(rs[i]).Some?
                                      && StrictKey(rs[i]).value in requests
                                      && requests[StrictKey(rs[i]).value] == rs[i])
    && forall k :: k in requests ==> exists i :: 0 <= i < |rs| && StrictKey(rs[i]) == Some(k)
  }

  ghost predicate PairedWith(paired: set<Key>, cs: seq<Record>) {
    && (forall i :: 0 <= i < |cs| ==> LooseKey(cs[i]).Some? && LooseKey(cs[i]).value in paired)
    && forall k :: k in paired ==> exists i :: 0 <= i < |cs| && LooseKey(cs[i]) == Some(k)
  }

  lemma IndexedSnoc(requests: map<Key, Record>, rs: seq<Record>, r: Record)
    requires Indexed(requests, rs) && GoodRequests(rs) && StrictKey(r).Some? && StrictKey(r).value !in requests
    ensures Indexed(requests[StrictKey(r).value := r], rs + [r]) && GoodRequests(rs + [r])
  {
    var k, all, more := StrictKey(r).value, rs + [r], requests[StrictKey(r).value := r];
    assert all[|rs|] == r;
    forall k' | k' in more
      ensures exists i :: 0 <= i < |all| && StrictKey(all[i]) == Some(k')
    {
      if k' != k {
        var i :| 0 <= i < |rs| && StrictKey(rs[i]) == Some(k');
        assert StrictKey(all[i]) == Some(k');
      }
    }
  }

  lemma DuplicateIsBad(requests: map<Key, Record>, rs: seq<Record>, r: Record)
    requires Indexed(requests, rs) && StrictKey(r).Some? && StrictKey(r).value in requests
    ensures !GoodRequests(rs + [r])
  {
    var i :| 0 <= i < |rs| && StrictKey(rs[i]) == StrictKey(r);
    assert (rs + [r])[i] == rs[i] && (rs + [r])[|rs|] == r;
  }

  lemma ReadableSnoc(done: seq<Record>, r: Record, event: Event)
    ensures OpcodesReadable(done + [r], event) <==>
              OpcodesReadable(done, event) && !(r.event == event && r.opcode.BadOpcode?)
  {
    var all := done + [r];
    assert all[|done|] == r;
    if OpcodesReadable(all, event) {
      forall i | 0 <= i < |done| && done[i].event == event
        ensures !done[i].opcode.BadOpcode?
      {
        assert all[i] == done[i];
      }
    }
  }

  lemma SelectSnoc(done: seq<Record>, r: Record, event: Event, w: Interval)
    ensures Select(done + [r], event, w) == Select(done, event, w) + if Inside(r, event, w) then [r] else []
  {
  }

  lemma {:induction false} SelectPrefix(records: seq<Record>, event: Event, w: Interval, n: nat)
    requires n <= |records|
    ensures Select(records[..n], event, w) <= Select(records, event, w)
    decreases |records|
  {
    if n < |records| {
      assert records[..|records| - 1][..n] == records[..n];
      SelectPrefix(records[..|records| - 1], event, w, n);
    } else {
      assert records[..n] == records;
    }
  }

  // --- First pass ------------------------------------------------------------------

  predicate RequestsFine(records: seq<Record>, w: Interval) {
    OpcodesReadable(records, Request) && GoodRequests(Select(records, Request, w))
  }

  lemma RequestsFinePrefix(records: seq<Record>, w: Interval, n: nat)
    requires n <= |records| && RequestsFine(records, w)
    ensures RequestsFine(records[..n], w)
  {
    SelectPrefix(records, Request, w, n);
  }

  /** What the first pass has after reading `done`. */
  ghost predicate Collected(done: seq<Record>, w: Interval, requests: map<Key, Record>) {
    var rs := Select(done, Request, w);
    RequestsFine(done, w) && Indexed(requests, rs) && |requests| == |rs|
  }

  /** What one more record does to the dictionary. */
  function Collect(requests: map<Key, Record>, r: Record, w: Interval): (map<Key, Record>, Option<Error>) {
    if r.event == Request && r.opcode.BadOpcode? then (requests, Some(TypeError))
    else if !Inside(r, Request, w) then (requests, None)
    else if StrictKey(r).None? then (requests, Some(MalformedRequest))
    else if StrictKey(r).value in requests then (requests, Some(DuplicateRequest))
    else (requests[StrictKey(r).value := r], None)
  }

  lemma CollectedSnoc(done: seq<Record>, r: Record, w: Interval, requests: map<Key, Record>)
    requires Collected(done, w, requests) && Collect(requests, r, w).1.None?
    ensures Collected(done + [r], w, Collect(requests, r, w).0)
  {
    ReadableSnoc(done, r, Request);
    SelectSnoc(done, r, Request, w);
    if Inside(r, Request, w) {
      IndexedSnoc(requests, Select(done, Request, w), r);
    } else {
      assert Select(done + [r], Request, w) == Select(done, Request, w);
    }
  }

  lemma CollectFails(done: seq<Record>, r: Record, w: Interval, requests: map<Key, Record>)
    requires Collected(done, w, requests) && Collect(requests, r, w).1.Some?
    ensures !RequestsFine(done + [r], w)
  {
    SelectSnoc(done, r, Request, w);
    ReadableSnoc(done, r, Request);
    if !(r.event == Request && r.opcode.BadOpcode?) {
      var rs := Select(done, Request, w);
      assert (rs + [r])[|rs|] == r;
      if StrictKey(r).Some? {
        DuplicateIsBad(requests, rs, r);
      }
    }
  }

  method CollectRequests(records: seq<Record>, w: Interval) returns (requests: map<Key, Record>, error: Option<Error>)
    ensures error.None? <==> RequestsFine(records, w)
    ensures error.None? ==> Collected(records, w, requests)
  {
    requests, error := map[], None;
    var i := 0;
    while i < |records|
      invariant 0 <= i <= |records|
      invariant Collected(records[..i], w, requests)
    {
      var next := Collect(requests, records[i], w);
      assert records[..i + 1] == records[..i] + [records[i]];
      if next.1.Some? {
        CollectFails(records[..i], records[i], w, requests);
        if RequestsFine(records, w) {
          RequestsFinePrefix(records, w, i + 1);
        }
        return requests, next.1;
      }
      CollectedSnoc(records[..i], records[i], w, requests);
      requests := next.0;
      i := i + 1;
    }
    assert records[..i] == records;
  }

  // --- Second pass -----------------------------------------------------------------

  datatype Tally = Tally(paired: set<Key>, count: nat, samples: map<Opcode, seq<int>>)

  const NoSamples: map<Opcode, seq<int>> := map[GETS := [], GETM := [], UPGRADE := [], PUTM := []]

  /** What one more record does to the tally. */
  function Pair(requests: map<Key, Record>, t: Tally, c: Record, w: Interval): (Tally, Option<Error>) {
    if c.event == Completion && c.opcode.BadOpcode? then (t, Some(TypeError))
    else if !Inside(c, Completion, w) then (t, None)
    else if !Hashable(c) then (t, Some(TypeError))
    else if LooseKey(c).None? || LooseKey(c).value !in requests then (t, Some(NoRequest))
    else
      var k := LooseKey(c).value;
      if requests[k].opcode != c.opcode then (t, Some(NoRequest))
      else if k in t.paired then (t, Some(DuplicateCompletion))
      else if c.duration.None? || c.duration.value <= 0 then (t, Some(BadDuration))
      else if !c.ok then (t, Some(FailedOperation))
      else if requests[k].time.None? || c.time.value < requests[k].time.value then (t, Some(PrecedesRequest))
      else
        var op := c.opcode.op;
        (Tally(t.paired + {k}, t.count + 1,
               t.samples[op := (if op in t.samples then t.samples[op] else []) + [c.duration.value]]), None)
  }

  predicate CompletionsFine(records: seq<Record>, w: Interval, rs: seq<Record>) {
    OpcodesReadable(records, Completion) && GoodCompletions(rs, Select(records, Completion, w))
  }

  lemma CompletionsFinePrefix(records: seq<Record>, w: Interval, rs: seq<Record>, n: nat)
    requires n <= |records| && CompletionsFine(records, w, rs)
    ensures CompletionsFine(records[..n], w, rs)
  {
    SelectPrefix(records, Completion, w, n);
  }

  ghost predicate Sampled(samples: map<Opcode, seq<int>>, cs: seq<Record>) {
    forall op :: op in samples && samples[op] == Durations(OfOpcode(cs, op))
  }

  /** What the second pass has after reading `done`. */
  ghost predicate Tallied(done: seq<Record>, w: Interval, rs: seq<Record>, t: Tally) {
    var cs := Select(done, Completion, w);
    CompletionsFine(done, w, rs) && PairedWith(t.paired, cs) && |t.paired| == t.count == |cs| && Sampled(t.samples, cs)
  }

  lemma NothingSampled()
    ensures Sampled(NoSamples, [])
  {
    forall op: Opcode
      ensures op in NoSamples && NoSamples[op] == Durations(OfOpcode([], op))
    {
      match op
      case GETS =>
      case GETM =>
      case UPGRADE =>
      case PUTM =>
    }
  }

  lemma AnsweredIff(requests: map<Key, Record>, rs: seq<Record>, c: Record)
    requires Indexed(requests, rs) && c.time.Some?
    ensures Answered(rs, c) <==> LooseKey(c).Some? && LooseKey(c).value in requests
                                 && Answers(c, requests[LooseKey(c).value])
  {
  }

  lemma PairedSnoc(paired: set<Key>, cs: seq<Record>, c: Record)
    requires PairedWith(paired, cs) && LooseKey(c).Some?
    ensures PairedWith(paired + {LooseKey(c).value}, cs + [c])
  {
    var k, all, more := LooseKey(c).value, cs + [c], paired + {LooseKey(c).value};
    assert all[|cs|] == c;
    forall k' | k' in more
      ensures exists i :: 0 <= i < |all| && LooseKey(all[i]) == Some(k')
    {
      if k' in paired {
        var i :| 0 <= i < |cs| && LooseKey(cs[i]) == Some(k');
        assert LooseKey(all[i]) == Some(k');
      }
    }
  }

  lemma GoodCompletionsSnoc(rs: seq<Record>, paired: set<Key>, cs: seq<Record>, c: Record)
    requires GoodCompletions(rs, cs) && PairedWith(paired, cs)
    ensures GoodCompletions(rs, cs + [c]) <==>
              Sample(c) && Answered(rs, c) && !(LooseKey(c).Some? && LooseKey(c).value in paired)
  {
    var all := cs + [c];
    assert all[|cs|] == c;
    if LooseKey(c).Some? && LooseKey(c).value in paired {
      var i :| 0 <= i < |cs| && LooseKey(cs[i]) == LooseKey(c);
      assert LooseKey(all[i]) == LooseKey(all[|cs|]);
    } else if Sample(c) && Answered(rs, c) {
      forall i, j | 0 <= i < j < |all|
        ensures LooseKey(all[i]) != LooseKey(all[j])
      {
        assert i < |cs| && all[i] == cs[i];
      }
    }
  }

  lemma SampledSnoc(samples: map<Opcode, seq<int>>, cs: seq<Record>, c: Record)
    requires Sampled(samples, cs) && c.opcode.Known? && c.duration.Some?
    ensures Sampled(samples[c.opcode.op := samples[c.opcode.op] + [c.duration.value]], cs + [c])
  {
  }

  lemma PairTaken(requests: map<Key, Record>, t: Tally, c: Record, w: Interval)
    requires Pair(requests, t, c, w).1.None? && Inside(c, Completion, w)
    ensures Sample(c) && LooseKey(c).Some? && LooseKey(c).value !in t.paired
    ensures LooseKey(c).value in requests
    ensures StrictKey(requests[LooseKey(c).value]) == LooseKey(c) ==> Answers(c, requests[LooseKey(c).value])
    ensures Pair(requests, t, c, w).0.paired == t.paired + {LooseKey(c).value}
    ensures Pair(requests, t, c, w).0.count == t.count + 1
    ensures c.opcode.op in t.samples ==>
              Pair(requests, t, c, w).0.samples
              == t.samples[c.opcode.op := t.samples[c.opcode.op] + [c.duration.value]]
  {
  }

  lemma TalliedTakes(done: seq<Record>, c: Record, w: Interval, rs: seq<Record>, requests: map<Key, Record>, t: Tally)
    requires Tallied(done, w, rs, t) && Indexed(requests, rs) && Pair(requests, t, c, w).1.None?
    requires Inside(c, Completion, w)
    ensures Tallied(done + [c], w, rs, Pair(requests, t, c, w).0)
  {
    var cs := Select(done, Completion, w);
    ReadableSnoc(done, c, Completion);
    SelectSnoc(done, c, Completion, w);
    PairTaken(requests, t, c, w);
    AnsweredIff(requests, rs, c);
    GoodCompletionsSnoc(rs, t.paired, cs, c);
    PairedSnoc(t.paired, cs, c);
    assert c.opcode.op in t.samples;
    SampledSnoc(t.samples, cs, c);
  }

  lemma TalliedSnoc(done: seq<Record>, c: Record, w: Interval, rs: seq<Record>, requests: map<Key, Record>, t: Tally)
    requires Tallied(done, w, rs, t) && Indexed(requests, rs) && Pair(requests, t, c, w).1.None?
    ensures Tallied(done + [c], w, rs, Pair(requests, t, c, w).0)
  {
    if Inside(c, Completion, w) {
      TalliedTakes(done, c, w, rs, requests, t);
    } else {
      ReadableSnoc(done, c, Completion);
      SelectSnoc(done, c, Completion, w);
      assert Select(done + [c], Completion, w) == Select(done, Completion, w);
    }
  }

  /** A completion in the interval that is not taken. */
  predicate Refused(requests: map<Key, Record>, paired: set<Key>, c: Record) {
    || !Sample(c) || LooseKey(c).None? || LooseKey(c).value in paired || LooseKey(c).value !in requests
    || !Answers(c, requests[LooseKey(c).value])
  }

  lemma PairErrorMeans(requests: map<Key, Record>, t: Tally, c: Record, w: Interval)
    requires Pair(requests, t, c, w).1.Some? && !(c.event == Completion && c.opcode.BadOpcode?)
    ensures Inside(c, Completion, w) && Refused(requests, t.paired, c)
  {
  }

  lemma PairFails(done: seq<Record>, c: Record, w: Interval, rs: seq<Record>, requests: map<Key, Record>, t: Tally)
    requires Tallied(done, w, rs, t) && Indexed(requests, rs) && Pair(requests, t, c, w).1.Some?
    ensures !CompletionsFine(done + [c], w, rs)
  {
    ReadableSnoc(done, c, Completion);
    if !(c.event == Completion && c.opcode.BadOpcode?) {
      PairErrorMeans(requests, t, c, w);
      SelectSnoc(done, c, Completion, w);
      AnsweredIff(requests, rs, c);
      GoodCompletionsSnoc(rs, t.paired, Select(done, Completion, w), c);
    }
  }

  method PairCompletions(records: seq<Record>, w: Interval, requests: map<Key, Record>, ghost rs: seq<Record>)
    returns (t: Tally, error: Option<Error>)
    requires Indexed(requests, rs)
    ensures error.None? <==> CompletionsFine(records, w, rs)
    ensures error.None? ==> Tallied(records, w, rs, t)
  {
    t, error := Tally({}, 0, NoSamples), None;
    NothingSampled();
    assert records[..0] == [];
    var i := 0;
    while i < |records|
      invariant 0 <= i <= |records|
      invariant Tallied(records[..i], w, rs, t)
    {
      var next := Pair(requests, t, records[i], w);
      assert records[..i + 1] == records[..i] + [records[i]];
      if next.1.Some? {
        PairFails(records[..i], records[i], w, rs, requests, t);
        if CompletionsFine(records, w, rs) {
          CompletionsFinePrefix(records, w, rs, i + 1);
        }
        return t, next.1;
      }
      TalliedSnoc(records[..i], records[i], w, rs, requests, t);
      t := next.0;
      i := i + 1;
    }
    assert records[..i] == records;
  }

  lemma BalanceIff(requests: map<Key, Record>, rs: seq<Record>, paired: set<Key>, cs: seq<Record>)
    requires Indexed(requests, rs) && PairedWith(paired, cs) && GoodCompletions(rs, cs)
    ensures paired == requests.Keys <==> AllAnswered(rs, cs)
  {
  }

  /** The timing of an interval: there is one exactly when the trace is accepted, with the
      number of requests and completions and, by opcode, the durations in trace order. */
  method RequestCompletionTiming(records: seq<Record>, w: Interval) returns (r: Result)
    ensures r.Ok? <==> Accepted(records, w)
    ensures r.Ok? ==>
              && r.timing.requestCount == |Select(records, Request, w)|
              && r.timing.completionCount == |Select(records, Completion, w)|
              && Sampled(r.timing.samples, Select(records, Completion, w))
  {
    var requests, error := CollectRequests(records, w);
    if error.Some? {
      return Err(error.value);
    }
    ghost var rs, cs := Select(records, Request, w), Select(records, Completion, w);
    var t, problem := PairCompletions(records, w, requests, rs);
    if problem.Some? {
      return Err(problem.value);
    }
    BalanceIff(requests, rs, t.paired, cs);
    if t.count > 0 && t.paired != requests.Keys {
      return Err(Imbalanced);
    }
    return Ok(Timing(|requests|, t.count, t.samples));
  }
}
