/** The serving lanes of the clients: their counters and opcode tables, and the laws that
    validation checks lane by lane. */
module LaneLaws {
  import opened Options

  datatype Counter =
    | Submitted | Consumed | Calls | CqWait | SqPublish
    | SqProduced | SqConsumed | CqProduced | CqConsumed
    | ServedConsumed | ServedPublished | ServedPolls | ServedBackend
    | SubmitCalls | CompletionPolls | PeerLoads | SelfLoads | Rereads | EmptyPolls | SpinPolls | Yields | Sleeps
    | HandoffRequests | HandoffGrants | HandoffReleases | HandoffWait | RequestGen | GrantGen | ReleaseGen
    | OpenAttempts | OpenPins | OpenFallbacks | CloseAttempts | CloseReleases | BatchedCommands | BatchedItems
    | Attempts | Hits | NotFound | Fallbacks | Elided
    | NoHint | Stale | ColdAttempts | ColdHits | ColdNotFound | ColdFallbacks
    | ReadTime | GateLoads | RootLoads | DentryLoads | InodeLoads
    | Retries | Recoveries | Exhaustions | RootUnavailable | DentryDecode | InodeDecode | SnapshotChanged
    | CreateAttempts | CreateHits | CreateFallbacks | CreateErrors | CreateElided | CreateRetryHits
    | CreateIneligible | CreateNoWriter | CreateExisting | CreateExhausted | CreateUnproven
    | Installs | Replacements | Handoffs
    | UnlinkAttempts | UnlinkElided | UnlinkFallbacks | UnlinkNotFound | UnlinkMembership | UnlinkRevoked
    | UnlinkIneligible | UnlinkNoWriter | UnlinkUnapplied | UnlinkBase | UnlinkOverlay | UnlinkTarget | UnlinkLive
    | UnsupportedCalls | TcpRequests | LegacyCalls | BlobBytes | TransportFallbacks

  type Counts = Counter -> nat

  /** Opcodes as the evidence spells them: "2", "35" and all others. */
  datatype Opcode = ReadMetadata | OwnerRelease | Spelled(text: string)

  /** The items of a dictionary by opcode. */
  type Table = seq<(Opcode, nat)>

  datatype CursorMode = LegacyShared | Owned | OtherCursor

  datatype WaitMode = TimerSleep | CooperativeYield | OtherWait

  /** The evidence of one lane. */
  datatype Lane = Lane(
    counts: Counts, cursor: CursorMode, wait: WaitMode, capability: bool, waits: Table, dispatches: Table)

  datatype Mode = Rpc | Cxl | Unchecked

  /** What the run asked for; a mode that is not given is not checked. */
  datatype Expected = Expected(cursor: Option<CursorMode>, wait: Option<WaitMode>, mode: Mode)

  // --- Tables ----------------------------------------------------------------------

  predicate Keyed(t: Table) {
    forall i, j :: 0 <= i < j < |t| ==> t[i].0 != t[j].0
  }

  function Sum(t: Table): nat {
    if t == [] then 0 else Sum(t[..|t| - 1]) + t[|t| - 1].1
  }

  /** The value under an opcode, 0 when there is none. */
  function At(t: Table, op: Opcode): nat {
    if t == [] then 0
    else if t[|t| - 1].0 == op then t[|t| - 1].1
    else At(t[..|t| - 1], op)
  }

  predicate Has(t: Table, op: Opcode) {
    exists i :: 0 <= i < |t| && t[i].0 == op
  }

  /** Adds to an entry, or makes one. */
  function Bump(t: Table, op: Opcode, v: nat): Table {
    if t == [] then [(op, v)]
    else if t[|t| - 1].0 == op then t[..|t| - 1] + [(op, t[|t| - 1].1 + v)]
    else Bump(t[..|t| - 1], op, v) + [t[|t| - 1]]
  }

  lemma SumSnoc(t: Table, e: (Opcode, nat))
    ensures Sum(t + [e]) == Sum(t) + e.1
  {
    assert (t + [e])[..|t|] == t;
  }

  lemma AtSnoc(t: Table, e: (Opcode, nat), x: Opcode)
    ensures At(t + [e], x) == if e.0 == x then e.1 else At(t, x)
  {
    assert (t + [e])[..|t|] == t;
  }

  lemma {:induction false} BumpAdds(t: Table, op: Opcode, v: nat)
    ensures Sum(Bump(t, op, v)) == Sum(t) + v
  {
    if t == [] {
      SumSnoc([], (op, v));
    } else {
      var init, last := t[..|t| - 1], t[|t| - 1];
      BumpAdds(init, op, v);
      SumSnoc(Bump(init, op, v), last);
      SumSnoc(init, (op, last.1 + v));
    }
  }

  lemma {:induction false} BumpAt(t: Table, op: Opcode, v: nat, x: Opcode)
    ensures At(Bump(t, op, v), x) == At(t, x) + if x == op then v else 0
  {
    if t == [] {
      AtSnoc([], (op, v), x);
    } else {
      var init, last := t[..|t| - 1], t[|t| - 1];
      BumpAt(init, op, v, x);
      AtSnoc(Bump(init, op, v), last, x);
      AtSnoc(init, (op, last.1 + v), x);
    }
  }

  function SumAll(tables: seq<Table>): nat {
    if tables == [] then 0 else SumAll(tables[..|tables| - 1]) + Sum(tables[|tables| - 1])
  }

  function AtAll(tables: seq<Table>, op: Opcode): nat {
    if tables == [] then 0 else AtAll(tables[..|tables| - 1], op) + At(tables[|tables| - 1], op)
  }

  /** Like `At` but adding every entry of the opcode; the same where keys are distinct. */
  function Each(t: Table, op: Opcode): nat {
    if t == [] then 0 else Each(t[..|t| - 1], op) + if t[|t| - 1].0 == op then t[|t| - 1].1 else 0
  }

  lemma {:induction false} EachOnce(t: Table, op: Opcode)
    requires Keyed(t)
    ensures Each(t, op) == At(t, op)
    ensures !Has(t, op) ==> Each(t, op) == 0
  {
    if t != [] {
      var init := t[..|t| - 1];
      EachOnce(init, op);
      if Has(init, op) {
        var i :| 0 <= i < |init| && init[i].0 == op;
        assert t[i].0 == op;
      } else if Has(t, op) {
        assert t[|t| - 1].0 == op;
      }
    }
  }

  /** Merges the tables of all lanes by opcode. */
  method MergeTables(tables: seq<Table>) returns (merged: Table)
    requires forall i :: 0 <= i < |tables| ==> Keyed(tables[i])
    ensures Sum(merged) == SumAll(tables)
    ensures forall op :: At(merged, op) == AtAll(tables, op)
  {
    merged := [];
    var i := 0;
    assert tables[..0] == [];
    while i < |tables|
      invariant 0 <= i <= |tables|
      invariant Sum(merged) == SumAll(tables[..i])
      invariant forall op :: At(merged, op) == AtAll(tables[..i], op)
    {
      assert tables[..i + 1][..i] == tables[..i];
      merged := MergeTable(merged, tables[i]);
      forall op: Opcode
        ensures At(merged, op) == AtAll(tables[..i + 1], op)
      {
        EachOnce(tables[i], op);
      }
      i := i + 1;
    }
    assert tables[..i] == tables;
  }

  method MergeTable(merged0: Table, t: Table) returns (merged: Table)
    ensures Sum(merged) == Sum(merged0) + Sum(t)
    ensures forall op :: At(merged, op) == At(merged0, op) + Each(t, op)
  {
    merged := merged0;
    var j := 0;
    assert t[..0] == [];
    while j < |t|
      invariant 0 <= j <= |t|
      invariant Sum(merged) == Sum(merged0) + Sum(t[..j])
      invariant forall op :: At(merged, op) == At(merged0, op) + Each(t[..j], op)
    {
      assert t[..j + 1][..j] == t[..j];
      BumpAdds(merged, t[j].0, t[j].1);
      forall op: Opcode
        ensures At(Bump(merged, t[j].0, t[j].1), op) == At(merged0, op) + Each(t[..j + 1], op)
      {
        BumpAt(merged, t[j].0, t[j].1, op);
      }
      merged := Bump(merged, t[j].0, t[j].1);
      j := j + 1;
    }
    assert t[..j] == t;
  }

  // --- The laws of a lane ----------------------------------------------------------

  /** Laws between counters.  Each one also holds of sums of counters that obey it. */
  predicate Obeys(c: Counts) {
    && ObeysQueues(c) && ObeysPolls(c) && ObeysHandoffs(c) && ObeysCloses(c) && ObeysDirect(c) && ObeysCold(c)
    && ObeysRetries(c) && ObeysIdle(c) && ObeysCreates(c) && ObeysLeases(c) && ObeysUnlinks(c) && ObeysKept(c) && OnlyCxl(c)
  }

  predicate ObeysQueues(c: Counts) {
    && c(Consumed) == c(Submitted) == c(Calls)
    && c(SqProduced) == c(SqConsumed) == c(CqProduced) == c(CqConsumed) == c(Submitted)
    && c(ServedConsumed) == c(ServedPublished) == c(Submitted)
  }

  predicate ObeysPolls(c: Counts) {
    && c(SubmitCalls) == c(Submitted) <= c(CompletionPolls) <= c(PeerLoads)
    && c(CompletionPolls) == c(EmptyPolls) + c(Submitted)
    && c(EmptyPolls) == c(SpinPolls) + c(Yields) + c(Sleeps)
  }

  predicate ObeysHandoffs(c: Counts) {
    && c(HandoffRequests) == c(HandoffGrants) == c(HandoffReleases)
    && c(RequestGen) == c(GrantGen) == c(ReleaseGen) == c(HandoffRequests)
    && (c(HandoffRequests) > 0 <==> c(HandoffWait) > 0)
  }

  predicate ObeysCloses(c: Counts) {
    && c(OpenPins) + c(OpenFallbacks) <= c(OpenAttempts)
    && c(BatchedCommands) <= c(BatchedItems) <= c(CloseReleases) <= c(CloseAttempts)
  }

  predicate ObeysDirect(c: Counts) {
    && c(Attempts) == c(Hits) + c(NotFound) + c(Fallbacks)
    && c(Elided) == c(Hits) + c(NotFound)
  }

  predicate ObeysCold(c: Counts) {
    && c(ColdAttempts) == c(NoHint) + c(Stale) == c(ColdHits) + c(ColdNotFound) + c(ColdFallbacks)
    && c(ColdHits) <= c(Hits) && c(ColdNotFound) <= c(NotFound) && c(ColdFallbacks) <= c(Fallbacks)
  }

  predicate ObeysRetries(c: Counts) {
    && c(Recoveries) + c(Exhaustions) <= c(Retries)
    && c(Retries) == c(RootUnavailable) + c(DentryDecode) + c(InodeDecode) + c(SnapshotChanged)
  }

  /** What a direct reader loaded, and what it tried again. */
  predicate NoLoads(c: Counts) {
    c(ReadTime) == c(GateLoads) == c(RootLoads) == c(DentryLoads) == c(InodeLoads) == 0
  }

  predicate NoRetries(c: Counts) {
    && c(Retries) == c(Recoveries) == c(Exhaustions) == 0
    && c(RootUnavailable) == c(DentryDecode) == c(InodeDecode) == c(SnapshotChanged) == 0
  }

  predicate ObeysIdle(c: Counts) {
    c(Attempts) == 0 ==> NoLoads(c) && NoRetries(c)
  }

  predicate ObeysCreates(c: Counts) {
    && c(CreateAttempts) == c(CreateHits) + c(CreateFallbacks) + c(CreateErrors)
    && c(CreateHits) == c(CreateElided) + c(CreateRetryHits)
    && c(CreateFallbacks) == c(CreateIneligible) + c(CreateNoWriter) + c(CreateExisting) + c(CreateExhausted)
                             + c(CreateUnproven)
  }

  predicate ObeysLeases(c: Counts) {
    && c(Installs) <= c(CreateAttempts) && (c(CreateHits) > 0 ==> c(Installs) > 0)
    && (c(Replacements) == 0 || c(Replacements) <= c(Installs) - 1)
    && c(Handoffs) <= c(CreateHits)
  }

  predicate ObeysUnlinks(c: Counts) {
    c(UnlinkAttempts)
    == c(UnlinkElided) + c(UnlinkFallbacks) + c(UnlinkNotFound) + c(UnlinkMembership) + c(UnlinkRevoked)
  }

  /** The reasons for which an unlink was not made directly. */
  predicate ObeysKept(c: Counts) {
    c(UnlinkFallbacks) == c(UnlinkIneligible) + c(UnlinkNoWriter) + c(UnlinkUnapplied) + c(UnlinkBase)
                          + c(UnlinkOverlay) + c(UnlinkTarget) + c(UnlinkLive)
  }

  /** Nothing was served in another way. */
  predicate OnlyCxl(c: Counts) {
    c(UnsupportedCalls) == c(TcpRequests) == c(LegacyCalls) == c(BlobBytes) == c(TransportFallbacks) == 0
  }

  predicate NoAttempts(c: Counts) {
    c(Attempts) == c(Hits) == c(NotFound) == c(Fallbacks) == c(Elided) == 0
  }

  predicate NoCold(c: Counts) {
    c(NoHint) == c(Stale) == c(ColdAttempts) == c(ColdHits) == c(ColdNotFound) == c(ColdFallbacks) == 0
  }

  /** The direct reader was never used. */
  predicate NoDirect(c: Counts) {
    NoAttempts(c) && NoCold(c) && NoLoads(c) && NoRetries(c)
  }

  predicate Positive(t: Table) {
    t != [] && forall i :: 0 <= i < |t| ==> t[i].1 > 0
  }

  /** Every opcode that was waited for was dispatched. */
  predicate Covered(lane: Lane) {
    forall i :: 0 <= i < |lane.waits| ==> Has(lane.dispatches, lane.waits[i].0)
  }

  /** Something was submitted, and every part of its path took time. */
  predicate Worked(c: Counts) {
    c(Submitted) > 0 && c(ServedPolls) > 0 && c(ServedBackend) > 0 && c(SqPublish) > 0 && c(CqWait) > 0
  }

  predicate WaitsFit(lane: Lane) {
    Positive(lane.waits) && Sum(lane.waits) == lane.counts(CqWait) && Covered(lane)
  }

  predicate ModesFit(lane: Lane, expected: Expected) {
    && !lane.cursor.OtherCursor? && (expected.cursor.Some? ==> lane.cursor == expected.cursor.value)
    && !lane.wait.OtherWait? && (expected.wait.Some? ==> lane.wait == expected.wait.value)
  }

  /** The accesses that each mode must make or must not make. */
  predicate AccessFits(lane: Lane) {
    var c := lane.counts;
    && (lane.wait.CooperativeYield? ==> c(Sleeps) == 0)
    && (lane.wait.TimerSleep? ==> c(Yields) == 0)
    && (lane.cursor.Owned? ==> c(SelfLoads) == c(Rereads) == 0)
    && (lane.cursor.LegacyShared? ==> c(SelfLoads) >= 2 * c(Submitted) && c(Rereads) == c(Submitted))
  }

  predicate ReaderFits(lane: Lane, mode: Mode) {
    && (mode == Rpc ==> !lane.capability && NoDirect(lane.counts))
    && (mode == Cxl ==> lane.capability)
  }

  predicate DispatchesFit(lane: Lane, mode: Mode) {
    && Positive(lane.dispatches) && Sum(lane.dispatches) == lane.counts(Submitted)
    && At(lane.dispatches, OwnerRelease) == 1
    && (mode == Cxl ==> At(lane.dispatches, ReadMetadata) == lane.counts(Fallbacks))
  }

  /** A lane that passes validation.  Tables come from dictionaries: keys are distinct. */
  predicate ValidLane(lane: Lane, expected: Expected) {
    && Keyed(lane.waits) && Keyed(lane.dispatches)
    && Obeys(lane.counts) && Worked(lane.counts)
    && WaitsFit(lane) && ModesFit(lane, expected) && AccessFits(lane)
    && ReaderFits(lane, expected.mode) && DispatchesFit(lane, expected.mode)
  }

  // --- The validator ---------------------------------------------------------------

  datatype Error =
    | QueuesUnbalanced | HandoffsUnbalanced | HandoffWaits | SequencesUnbalanced | ServiceTiming | ClientTiming
    | WaitsByOpcode | BadCursor | OtherThanExpectedCursor | BadWait | OtherThanExpectedWait | FusedOpen | FusedClose
    | BatchedClose | LaneAccess | SleptWhileYielding | YieldedWhileSleeping | OwnedReread | LegacyReread
    | DirectAttempts | DirectElision | ColdAdmission | ColdOutcome | ColdExceeds | ColdFallback | UnstableOutcomes
    | UnstableReasons | IdleReader | DirectInRpc | NoCapability | CreateTotals | CreateOrigins | CreateReasons | Leases
    | Replaced | CloseHandoffs | UnlinkOutcomes | UnlinkReasons | NoDispatches | DispatchTotal | NotReleased
    | MetadataCommands | OtherPath

  datatype Verdict = Passed | Failed(error: Error)

  /** Queues, handoffs and timing. */
  method CheckQueues(c: Counts) returns (v: Verdict)
    ensures v.Passed? <==> Worked(c) && ObeysQueues(c) && ObeysHandoffs(c)
  {
    if c(Submitted) == 0 || c(Consumed) != c(Submitted) {
      return Failed(QueuesUnbalanced);
    }
    if !(c(HandoffRequests) == c(HandoffGrants) == c(HandoffReleases)
         && c(RequestGen) == c(GrantGen) == c(ReleaseGen) == c(HandoffRequests)) {
      return Failed(HandoffsUnbalanced);
    }
    if (c(HandoffRequests) > 0) != (c(HandoffWait) > 0) {
      return Failed(HandoffWaits);
    }
    if c(SqProduced) != c(Submitted) || c(SqConsumed) != c(Submitted) || c(CqProduced) != c(Submitted)
       || c(CqConsumed) != c(Submitted) {
      return Failed(SequencesUnbalanced);
    }
    if c(ServedConsumed) != c(Submitted) || c(ServedPublished) != c(Submitted) || c(ServedPolls) == 0
       || c(ServedBackend) == 0 {
      return Failed(ServiceTiming);
    }
    if c(Calls) != c(Submitted) || c(SqPublish) == 0 || c(CqWait) == 0 {
      return Failed(ClientTiming);
    }
    return Passed;
  }

  /** Waits by opcode, modes, opens and closes, and the accesses of the lane. */
  method CheckLane(lane: Lane, expected: Expected) returns (v: Verdict)
    ensures v.Passed? <==>
              && WaitsFit(lane) && ModesFit(lane, expected) && ObeysCloses(lane.counts) && ObeysPolls(lane.counts)
              && AccessFits(lane)
  {
    var c := lane.counts;
    if !Positive(lane.waits) || Sum(lane.waits) != c(CqWait) || !Covered(lane) {
      return Failed(WaitsByOpcode);
    }
    if lane.cursor.OtherCursor? {
      return Failed(BadCursor);
    }
    if expected.cursor.Some? && lane.cursor != expected.cursor.value {
      return Failed(OtherThanExpectedCursor);
    }
    if lane.wait.OtherWait? {
      return Failed(BadWait);
    }
    if expected.wait.Some? && lane.wait != expected.wait.value {
      return Failed(OtherThanExpectedWait);
    }
    if c(OpenPins) + c(OpenFallbacks) > c(OpenAttempts) {
      return Failed(FusedOpen);
    }
    if c(CloseReleases) > c(CloseAttempts) {
      return Failed(FusedClose);
    }
    if c(BatchedCommands) > c(BatchedItems) || c(BatchedItems) > c(CloseReleases) {
      return Failed(BatchedClose);
    }
    if c(SubmitCalls) != c(Submitted) || c(CompletionPolls) < c(Submitted) || c(PeerLoads) < c(CompletionPolls)
       || c(CompletionPolls) != c(EmptyPolls) + c(Submitted)
       || c(EmptyPolls) != c(SpinPolls) + c(Yields) + c(Sleeps) {
      return Failed(LaneAccess);
    }
    if lane.wait.CooperativeYield? && c(Sleeps) != 0 {
      return Failed(SleptWhileYielding);
    }
    if lane.wait.TimerSleep? && c(Yields) != 0 {
      return Failed(YieldedWhileSleeping);
    }
    if lane.cursor.Owned? && (c(SelfLoads) != 0 || c(Rereads) != 0) {
      return Failed(OwnedReread);
    }
    if lane.cursor.LegacyShared? && (c(SelfLoads) < 2 * c(Submitted) || c(Rereads) != c(Submitted)) {
      return Failed(LegacyReread);
    }
    return Passed;
  }

  method CheckDirect(lane: Lane, mode: Mode) returns (v: Verdict)
    ensures v.Passed? <==>
              && ObeysDirect(lane.counts) && ObeysCold(lane.counts) && ObeysRetries(lane.counts) && ObeysIdle(lane.counts)
              && ReaderFits(lane, mode)
  {
    var c := lane.counts;
    if c(Attempts) != c(Hits) + c(NotFound) + c(Fallbacks) {
      return Failed(DirectAttempts);
    }
    if c(Elided) != c(Hits) + c(NotFound) {
      return Failed(DirectElision);
    }
    if c(ColdAttempts) != c(NoHint) + c(Stale) {
      return Failed(ColdAdmission);
    }
    if c(ColdAttempts) != c(ColdHits) + c(ColdNotFound) + c(ColdFallbacks) {
      return Failed(ColdOutcome);
    }
    if c(ColdHits) > c(Hits) || c(ColdNotFound) > c(NotFound) {
      return Failed(ColdExceeds);
    }
    if c(ColdFallbacks) > c(Fallbacks) {
      return Failed(ColdFallback);
    }
    if c(Recoveries) + c(Exhaustions) > c(Retries) {
      return Failed(UnstableOutcomes);
    }
    if c(RootUnavailable) + c(DentryDecode) + c(InodeDecode) + c(SnapshotChanged) != c(Retries) {
      return Failed(UnstableReasons);
    }
    if c(Attempts) == 0 && !(NoLoads(c) && NoRetries(c)) {
      return Failed(IdleReader);
    }
    if mode == Rpc && (lane.capability || !NoDirect(c)) {
      return Failed(DirectInRpc);
    }
    if mode == Cxl && !lane.capability {
      return Failed(NoCapability);
    }
    return Passed;
  }

  method CheckMutation(c: Counts) returns (v: Verdict)
    ensures v.Passed? <==> ObeysCreates(c) && ObeysLeases(c) && ObeysUnlinks(c) && ObeysKept(c)
  {
    if c(CreateAttempts) != c(CreateHits) + c(CreateFallbacks) + c(CreateErrors) {
      return Failed(CreateTotals);
    }
    if c(CreateHits) != c(CreateElided) + c(CreateRetryHits) {
      return Failed(CreateOrigins);
    }
    if c(CreateFallbacks) != c(CreateIneligible) + c(CreateNoWriter) + c(CreateExisting) + c(CreateExhausted)
                             + c(CreateUnproven) {
      return Failed(CreateReasons);
    }
    if c(Installs) > c(CreateAttempts) || (c(CreateHits) > 0 && c(Installs) == 0) {
      return Failed(Leases);
    }
    if c(Replacements) > if c(Installs) > 1 then c(Installs) - 1 else 0 {
      return Failed(Replaced);
    }
    if c(Handoffs) > c(CreateHits) {
      return Failed(CloseHandoffs);
    }
    if c(UnlinkAttempts)
       != c(UnlinkElided) + c(UnlinkFallbacks) + c(UnlinkNotFound) + c(UnlinkMembership) + c(UnlinkRevoked) {
      return Failed(UnlinkOutcomes);
    }
    if c(UnlinkFallbacks) != c(UnlinkIneligible) + c(UnlinkNoWriter) + c(UnlinkUnapplied) + c(UnlinkBase)
                             + c(UnlinkOverlay) + c(UnlinkTarget) + c(UnlinkLive) {
      return Failed(UnlinkReasons);
    }
    return Passed;
  }

  method CheckDispatches(lane: Lane, mode: Mode) returns (v: Verdict)
    ensures v.Passed? <==> DispatchesFit(lane, mode) && OnlyCxl(lane.counts)
  {
    if lane.dispatches == [] {
      return Failed(NoDispatches);
    }
    if !Positive(lane.dispatches) || Sum(lane.dispatches) != lane.counts(Submitted) {
      return Failed(DispatchTotal);
    }
    if At(lane.dispatches, OwnerRelease) != 1 {
      return Failed(NotReleased);
    }
    if mode == Cxl && At(lane.dispatches, ReadMetadata) != lane.counts(Fallbacks) {
      return Failed(MetadataCommands);
    }
    if !OnlyCxl(lane.counts) {
      return Failed(OtherPath);
    }
    return Passed;
  }

  /** The validator, its checks in the order of the source, passes exactly the lanes that
      obey every law. */
  method ValidateLane(lane: Lane, expected: Expected) returns (v: Verdict)
    requires Keyed(lane.waits) && Keyed(lane.dispatches)
    ensures v.Passed? <==> ValidLane(lane, expected)
  {
    v := CheckQueues(lane.counts);
    if v.Passed? {
      v := CheckLane(lane, expected);
    }
    if v.Passed? {
      v := CheckDirect(lane, expected.mode);
    }
    if v.Passed? {
      v := CheckMutation(lane.counts);
    }
    if v.Passed? {
      v := CheckDispatches(lane, expected.mode);
    }
  }
}
