/** The sums of the lane counters over all ranks and authorities: what validation lane by
    lane says about them. */
module Conservation {
  import opened Options
  import opened LaneLaws

  /** Each process holds the evidence of its lanes, one for each authority. */
  type Summaries = seq<seq<Lane>>

  function Flat(summaries: Summaries): seq<Lane> {
    if summaries == [] then [] else Flat(summaries[..|summaries| - 1]) + summaries[|summaries| - 1]
  }

  function Total(lanes: seq<Lane>, c: Counter): nat {
    if lanes == [] then 0 else Total(lanes[..|lanes| - 1], c) + lanes[|lanes| - 1].counts(c)
  }

  function Totals(lanes: seq<Lane>): Counts {
    (c: Counter) => Total(lanes, c)
  }

  ghost predicate Adds(a: Counts, b: Counts, sum: Counts) {
    forall c :: sum(c) == a(c) + b(c)
  }

  lemma QueuesAdd(a: Counts, b: Counts, sum: Counts)
    requires Adds(a, b, sum) && ObeysQueues(a) && ObeysQueues(b) && ObeysPolls(a) && ObeysPolls(b)
    requires ObeysHandoffs(a) && ObeysHandoffs(b) && ObeysCloses(a) && ObeysCloses(b)
    ensures ObeysQueues(sum) && ObeysPolls(sum) && ObeysHandoffs(sum) && ObeysCloses(sum)
  {
  }

  lemma DirectAdds(a: Counts, b: Counts, sum: Counts)
    requires Adds(a, b, sum) && ObeysDirect(a) && ObeysDirect(b) && ObeysCold(a) && ObeysCold(b)
    requires ObeysRetries(a) && ObeysRetries(b) && ObeysIdle(a) && ObeysIdle(b)
    ensures ObeysDirect(sum) && ObeysCold(sum) && ObeysRetries(sum) && ObeysIdle(sum)
  {
  }

  lemma MutationsAdd(a: Counts, b: Counts, sum: Counts)
    requires Adds(a, b, sum) && ObeysCreates(a) && ObeysCreates(b) && ObeysLeases(a) && ObeysLeases(b)
    requires ObeysUnlinks(a) && ObeysUnlinks(b) && ObeysKept(a) && ObeysKept(b)
    ensures ObeysCreates(sum) && ObeysLeases(sum) && ObeysUnlinks(sum) && ObeysKept(sum)
  {
  }

  lemma ObeysAdds(a: Counts, b: Counts, sum: Counts)
    requires Obeys(a) && Obeys(b) && Adds(a, b, sum)
    ensures Obeys(sum)
  {
    QueuesAdd(a, b, sum);
    DirectAdds(a, b, sum);
    MutationsAdd(a, b, sum);
  }

  lemma NothingObeys(zero: Counts)
    requires forall c :: zero(c) == 0
    ensures Obeys(zero)
  {
  }

  /** The laws between the counters of a lane hold of the sums. */
  lemma {:induction false} TotalsObey(lanes: seq<Lane>)
    requires forall i :: 0 <= i < |lanes| ==> Obeys(lanes[i].counts)
    ensures Obeys(Totals(lanes))
  {
    if lanes == [] {
      NothingObeys(Totals(lanes));
    } else {
      var init, last := lanes[..|lanes| - 1], lanes[|lanes| - 1];
      TotalsObey(init);
      ObeysAdds(Totals(init), last.counts, Totals(lanes));
    }
  }

  function Waits(lanes: seq<Lane>): (r: seq<Table>)
    ensures |r| == |lanes|
  {
    seq(|lanes|, i requires 0 <= i < |lanes| => lanes[i].waits)
  }

  function Dispatches(lanes: seq<Lane>): (r: seq<Table>)
    ensures |r| == |lanes|
  {
    seq(|lanes|, i requires 0 <= i < |lanes| => lanes[i].dispatches)
  }

  ghost predicate AllValid(lanes: seq<Lane>, expected: Expected) {
    forall i :: 0 <= i < |lanes| ==> ValidLane(lanes[i], expected)
  }

  function Capable(lanes: seq<Lane>): nat {
    if lanes == [] then 0 else Capable(lanes[..|lanes| - 1]) + if lanes[|lanes| - 1].capability then 1 else 0
  }

  lemma {:induction false} AllCapable(lanes: seq<Lane>)
    requires forall i :: 0 <= i < |lanes| ==> lanes[i].capability
    ensures Capable(lanes) == |lanes|
  {
    if lanes != [] {
      AllCapable(lanes[..|lanes| - 1]);
    }
  }

  lemma {:induction false} WaitsAddUp(lanes: seq<Lane>)
    requires forall i :: 0 <= i < |lanes| ==> Sum(lanes[i].waits) == lanes[i].counts(CqWait)
    ensures SumAll(Waits(lanes)) == Total(lanes, CqWait)
  {
    if lanes != [] {
      var init := lanes[..|lanes| - 1];
      WaitsAddUp(init);
      assert Waits(lanes)[..|lanes| - 1] == Waits(init);
    }
  }

  lemma {:induction false} DispatchesAddUp(lanes: seq<Lane>)
    requires forall i :: 0 <= i < |lanes| ==> Sum(lanes[i].dispatches) == lanes[i].counts(Submitted)
    ensures SumAll(Dispatches(lanes)) == Total(lanes, Submitted)
  {
    if lanes != [] {
      var init := lanes[..|lanes| - 1];
      DispatchesAddUp(init);
      assert Dispatches(lanes)[..|lanes| - 1] == Dispatches(init);
    }
  }

  lemma {:induction false} FallbacksAreSent(lanes: seq<Lane>)
    requires forall i :: 0 <= i < |lanes| ==> At(lanes[i].dispatches, ReadMetadata) == lanes[i].counts(Fallbacks)
    ensures AtAll(Dispatches(lanes), ReadMetadata) == Total(lanes, Fallbacks)
  {
    if lanes != [] {
      var init := lanes[..|lanes| - 1];
      FallbacksAreSent(init);
      assert Dispatches(lanes)[..|lanes| - 1] == Dispatches(init);
    }
  }

  /** Every lane released its owner exactly once. */
  lemma {:induction false} ReleasesCounted(lanes: seq<Lane>)
    requires forall i :: 0 <= i < |lanes| ==> At(lanes[i].dispatches, OwnerRelease) == 1
    ensures AtAll(Dispatches(lanes), OwnerRelease) == |lanes|
  {
    if lanes != [] {
      var init := lanes[..|lanes| - 1];
      ReleasesCounted(init);
      assert Dispatches(lanes)[..|lanes| - 1] == Dispatches(init);
    }
  }

  /** READ_METADATA commands sent, plus those that direct reads made unnecessary. */
  function BaselineDemand(lanes: seq<Lane>): nat {
    AtAll(Dispatches(lanes), ReadMetadata) + Total(lanes, Elided)
  }

  function HitRatio(lanes: seq<Lane>): real {
    if Total(lanes, Attempts) == 0 then 0.0
    else Total(lanes, Elided) as real / Total(lanes, Attempts) as real
  }

  lemma RatioInRange(x: nat, y: nat)
    requires x <= y && y > 0
    ensures 0.0 <= x as real / y as real <= 1.0
  {
  }

  /** The demand is the number of attempts exactly when the commands sent are as many as
      the fallbacks, and the ratio of hits is always a ratio. */
  lemma DemandExactly(lanes: seq<Lane>)
    requires forall i :: 0 <= i < |lanes| ==> Obeys(lanes[i].counts)
    ensures BaselineDemand(lanes) == Total(lanes, Attempts) <==>
              AtAll(Dispatches(lanes), ReadMetadata) == Total(lanes, Fallbacks)
    ensures 0.0 <= HitRatio(lanes) <= 1.0
  {
    TotalsObey(lanes);
    var t := Totals(lanes);
    assert t(Attempts) == t(Hits) + t(NotFound) + t(Fallbacks) && t(Elided) == t(Hits) + t(NotFound);
    if t(Attempts) > 0 {
      RatioInRange(t(Elided), t(Attempts));
    }
  }

  // --- The aggregates --------------------------------------------------------------

  datatype Breakdown = Breakdown(
    lanes: nat, capableLanes: nat, cqWait: nat, waitsByOpcode: Table, submitted: nat, dispatchesByOpcode: Table,
    totals: Counts, readMetadata: nat, demand: nat, hitRatio: real, waitPerCommand: real)

  /** The aggregates are the sums over the lanes, in all and by opcode. */
  ghost predicate Aggregates(b: Breakdown, lanes: seq<Lane>) {
    && b.lanes == |lanes| && b.capableLanes == Capable(lanes)
    && (forall c :: b.totals(c) == Total(lanes, c))
    && b.cqWait == Total(lanes, CqWait) && b.submitted == Total(lanes, Submitted)
    && Sum(b.waitsByOpcode) == SumAll(Waits(lanes)) && Sum(b.dispatchesByOpcode) == SumAll(Dispatches(lanes))
    && (forall op :: At(b.waitsByOpcode, op) == AtAll(Waits(lanes), op))
    && (forall op :: At(b.dispatchesByOpcode, op) == AtAll(Dispatches(lanes), op))
    && b.readMetadata == AtAll(Dispatches(lanes), ReadMetadata)
    && b.demand == BaselineDemand(lanes) && b.hitRatio == HitRatio(lanes)
    && b.waitPerCommand * b.submitted as real == if b.submitted > 0 then b.cqWait as real else 0.0
  }

  method BreakDown(summaries: Summaries) returns (b: Breakdown)
    requires forall i :: 0 <= i < |Flat(summaries)| ==>
               Keyed(Flat(summaries)[i].waits) && Keyed(Flat(summaries)[i].dispatches)
    ensures Aggregates(b, Flat(summaries))
  {
    var lanes := Flat(summaries);
    var waits := MergeTables(Waits(lanes));
    var dispatches := MergeTables(Dispatches(lanes));
    var cqWait, submitted := Total(lanes, CqWait), Total(lanes, Submitted);
    b := Breakdown(
      |lanes|, Capable(lanes), cqWait, waits, submitted, dispatches, Totals(lanes), At(dispatches, ReadMetadata),
      At(dispatches, ReadMetadata) + Total(lanes, Elided), HitRatio(lanes),
      if submitted > 0 then cqWait as real / submitted as real else 0.0);
  }

  /** When every lane passed validation in cxl mode, over any number of ranks and
      authorities: merged waits by opcode add up to the total wait, merged dispatches to
      the submissions, the demand is the number of attempts, the hit ratio lies between 0
      and 1, every lane is capable and released its owner once, and the sums obey the laws
      of a lane. */
  lemma Conserved(b: Breakdown, lanes: seq<Lane>, expected: Expected)
    requires Aggregates(b, lanes) && AllValid(lanes, expected) && expected.mode == Cxl
    ensures Sum(b.waitsByOpcode) == b.cqWait && Sum(b.dispatchesByOpcode) == b.submitted
    ensures b.demand == b.totals(Attempts) && b.readMetadata == b.totals(Fallbacks)
    ensures 0.0 <= b.hitRatio <= 1.0
    ensures b.capableLanes == b.lanes == At(b.dispatchesByOpcode, OwnerRelease)
    ensures Obeys(b.totals)
  {
    WaitsAddUp(lanes);
    DispatchesAddUp(lanes);
    FallbacksAreSent(lanes);
    ReleasesCounted(lanes);
    AllCapable(lanes);
    DemandExactly(lanes);
    TotalsObey(lanes);
    ObeysSame(Totals(lanes), b.totals);
  }

  lemma ObeysSame(a: Counts, b: Counts)
    requires Obeys(a) && forall c :: b(c) == a(c)
    ensures Obeys(b)
  {
  }

  // --- What the sums say -----------------------------------------------------------

  /** Every poll, read, create and unlink is accounted for once, and no part exceeds its
      whole. */
  predicate Balanced(t: Counts) {
    && t(CompletionPolls) == t(SqProduced) + t(SpinPolls) + t(Yields) + t(Sleeps) <= t(PeerLoads)
    && t(Calls) == t(SqConsumed) == t(CqProduced) == t(CqConsumed) == t(ServedConsumed) == t(ServedPublished)
       == t(SubmitCalls) == t(Consumed) == t(SqProduced)
    && t(HandoffReleases) == t(HandoffGrants) == t(RequestGen) == t(GrantGen) == t(ReleaseGen)
    && (t(HandoffReleases) == 0 <==> t(HandoffWait) == 0)
    && t(OpenPins) + t(OpenFallbacks) <= t(OpenAttempts) && t(BatchedCommands) <= t(BatchedItems) <= t(CloseAttempts)
    && t(CloseReleases) <= t(CloseAttempts) && t(BatchedItems) <= t(CloseReleases)
    && t(Attempts) == t(Elided) + t(Fallbacks)
    && t(NoHint) + t(Stale) == t(ColdHits) + t(ColdNotFound) + t(ColdFallbacks) <= t(Attempts)
    && t(ColdHits) + t(ColdNotFound) <= t(Elided) && t(ColdAttempts) <= t(Attempts)
    && t(Recoveries) + t(Exhaustions) <= t(RootUnavailable) + t(DentryDecode) + t(InodeDecode) + t(SnapshotChanged)
    && t(CreateAttempts) == t(CreateElided) + t(CreateRetryHits) + t(CreateIneligible) + t(CreateNoWriter)
                            + t(CreateExisting) + t(CreateExhausted) + t(CreateUnproven) + t(CreateErrors)
    && t(Replacements) <= t(Installs) <= t(CreateAttempts) && t(Handoffs) <= t(CreateElided) + t(CreateRetryHits)
    && t(UnlinkAttempts) == t(UnlinkElided) + t(UnlinkNotFound) + t(UnlinkMembership) + t(UnlinkRevoked)
                            + t(UnlinkIneligible) + t(UnlinkNoWriter) + t(UnlinkUnapplied) + t(UnlinkBase)
                            + t(UnlinkOverlay) + t(UnlinkTarget) + t(UnlinkLive)
    && t(UnsupportedCalls) + t(TcpRequests) + t(LegacyCalls) + t(BlobBytes) + t(TransportFallbacks) == 0
  }

  lemma ObeyedIsBalanced(t: Counts)
    requires Obeys(t)
    ensures Balanced(t)
  {
  }

  /** The sums over lanes that passed are balanced. */
  lemma SumsAreBalanced(lanes: seq<Lane>, expected: Expected)
    requires AllValid(lanes, expected)
    ensures Balanced(Totals(lanes))
  {
    TotalsObey(lanes);
    ObeyedIsBalanced(Totals(lanes));
  }

  predicate YieldsOnly(c: Counts) {
    c(EmptyPolls) == c(SpinPolls) + c(Yields)
  }

  predicate SleepsOnly(c: Counts) {
    c(EmptyPolls) == c(SpinPolls) + c(Sleeps)
  }

  predicate ReadsTwice(c: Counts) {
    c(Rereads) == c(Submitted) && 2 * c(Submitted) <= c(SelfLoads)
  }

  predicate NeverRereads(c: Counts) {
    c(Rereads) == 0 && c(SelfLoads) == 0
  }

  /** What the modes of a lane that passed mean: between polls it only yields or only
      sleeps, and it reads its cursor again after every submission or never. */
  lemma ModesShow(lane: Lane, expected: Expected)
    requires ValidLane(lane, expected)
    ensures lane.wait.CooperativeYield? || lane.wait.TimerSleep?
    ensures lane.wait.CooperativeYield? ==> YieldsOnly(lane.counts)
    ensures lane.wait.TimerSleep? ==> SleepsOnly(lane.counts)
    ensures lane.cursor.LegacyShared? || lane.cursor.Owned?
    ensures lane.cursor.LegacyShared? ==> ReadsTwice(lane.counts)
    ensures lane.cursor.Owned? ==> NeverRereads(lane.counts)
  {
  }

  /** So do the sums over lanes that were all asked for the same modes. */
  lemma {:induction false} ModesShowInSums(lanes: seq<Lane>, expected: Expected)
    requires AllValid(lanes, expected)
    ensures expected.wait == Some(CooperativeYield) ==> YieldsOnly(Totals(lanes))
    ensures expected.wait == Some(TimerSleep) ==> SleepsOnly(Totals(lanes))
    ensures expected.cursor == Some(LegacyShared) ==> ReadsTwice(Totals(lanes))
    ensures expected.cursor == Some(Owned) ==> NeverRereads(Totals(lanes))
  {
    if lanes != [] {
      ModesShowInSums(lanes[..|lanes| - 1], expected);
      ModesShow(lanes[|lanes| - 1], expected);
    }
  }

  lemma NoDirectAdds(a: Counts, b: Counts, sum: Counts)
    requires NoDirect(a) && NoDirect(b) && Adds(a, b, sum)
    ensures NoDirect(sum)
  {
  }

  lemma NothingDirect(zero: Counts)
    requires forall c :: zero(c) == 0
    ensures NoDirect(zero)
  {
  }

  lemma {:induction false} NoDirectInSums(lanes: seq<Lane>)
    requires forall i :: 0 <= i < |lanes| ==> NoDirect(lanes[i].counts) && !lanes[i].capability
    ensures NoDirect(Totals(lanes)) && Capable(lanes) == 0
  {
    if lanes == [] {
      NothingDirect(Totals(lanes));
    } else {
      var init, last := lanes[..|lanes| - 1], lanes[|lanes| - 1];
      NoDirectInSums(init);
      NoDirectAdds(Totals(init), last.counts, Totals(lanes));
    }
  }

  /** In rpc mode no lane has or uses a direct reader, and the demand is what was sent. */
  lemma RpcReadsNothingDirectly(lanes: seq<Lane>, expected: Expected)
    requires AllValid(lanes, expected) && expected.mode == Rpc
    ensures NoDirect(Totals(lanes)) && Capable(lanes) == 0
    ensures BaselineDemand(lanes) == AtAll(Dispatches(lanes), ReadMetadata)
  {
    forall i | 0 <= i < |lanes|
      ensures NoDirect(lanes[i].counts) && !lanes[i].capability
    {
      assert ValidLane(lanes[i], expected);
    }
    NoDirectInSums(lanes);
    assert Totals(lanes)(Elided) == Total(lanes, Elided);
  }

  // --- Outside cxl mode ------------------------------------------------------------

  /** Two commands, one of them READ_METADATA, and no direct reader. */
  function PlainCounts(c: Counter): nat {
    match c
    case Submitted | Consumed | Calls | SubmitCalls | SqProduced | SqConsumed | CqProduced | CqConsumed
       | ServedConsumed | ServedPublished | CompletionPolls | PeerLoads => 2
    case CqWait | SqPublish | ServedPolls | ServedBackend => 1
    case _ => 0
  }

  const PlainLane: Lane :=
    Lane(PlainCounts, Owned, TimerSleep, false, [(OwnerRelease, 1)], [(OwnerRelease, 1), (ReadMetadata, 1)])

  lemma PlainQueues()
    ensures ObeysQueues(PlainCounts)
  {
  }

  lemma PlainPolls()
    ensures ObeysPolls(PlainCounts)
  {
  }

  lemma PlainHandoffs()
    ensures ObeysHandoffs(PlainCounts)
  {
  }

  lemma PlainWork()
    ensures Worked(PlainCounts)
  {
  }

  lemma PlainPaths()
    ensures OnlyCxl(PlainCounts)
  {
  }

  lemma PlainCloses()
    ensures ObeysCloses(PlainCounts)
  {
  }

  lemma PlainAttempts()
    ensures NoAttempts(PlainCounts)
  {
  }

  lemma PlainCold()
    ensures NoCold(PlainCounts)
  {
  }

  lemma PlainLoads()
    ensures NoLoads(PlainCounts)
  {
  }

  lemma PlainRetries()
    ensures NoRetries(PlainCounts)
  {
  }

  lemma PlainCreates()
    ensures ObeysCreates(PlainCounts)
  {
  }

  lemma PlainLeases()
    ensures ObeysLeases(PlainCounts)
  {
  }

  lemma PlainUnlinks()
    ensures ObeysUnlinks(PlainCounts)
  {
  }

  lemma PlainKept()
    ensures ObeysKept(PlainCounts)
  {
  }

  lemma UnusedReaderObeys(c: Counts)
    requires NoDirect(c)
    ensures ObeysDirect(c) && ObeysCold(c) && ObeysRetries(c) && ObeysIdle(c)
  {
  }

  /** What is left to say of a lane in rpc mode whose counters obey their laws. */
  lemma PassesInRpc(lane: Lane, expected: Expected)
    requires expected.mode == Rpc && expected.cursor.None? && expected.wait.None?
    requires Obeys(lane.counts) && Worked(lane.counts) && NoDirect(lane.counts) && !lane.capability
    requires lane.cursor == Owned && lane.wait == TimerSleep && AccessFits(lane)
    requires Keyed(lane.waits) && WaitsFit(lane) && Keyed(lane.dispatches) && DispatchesFit(lane, Rpc)
    ensures ValidLane(lane, expected)
  {
  }

  lemma PlainFits()
    ensures AccessFits(PlainLane) && WaitsFit(PlainLane) && DispatchesFit(PlainLane, Rpc)
  {
    PlainTables();
  }

  lemma PlainLanePasses(expected: Expected)
    requires expected.mode == Rpc && expected.cursor.None? && expected.wait.None?
    ensures ValidLane(PlainLane, expected)
  {
    PlainQueues();
    PlainPolls();
    PlainHandoffs();
    PlainWork();
    PlainPaths();
    PlainCloses();
    PlainAttempts();
    PlainCold();
    PlainLoads();
    PlainRetries();
    PlainCreates();
    PlainLeases();
    PlainUnlinks();
    PlainKept();
    UnusedReaderObeys(PlainCounts);
    PlainFits();
    PassesInRpc(PlainLane, expected);
  }

  lemma PlainSums()
    ensures Total([PlainLane], Attempts) == Total([PlainLane], Elided) == 0
    ensures AtAll(Dispatches([PlainLane]), ReadMetadata) == 1
  {
    PlainTables();
    assert [PlainLane][..0] == [];
    assert Dispatches([PlainLane]) == [PlainLane.dispatches];
    assert [PlainLane.dispatches][..0] == [];
  }

  /** The demand need not be the number of attempts: a lane that passes validation in rpc
      mode, with a demand of one and no attempt. */
  lemma DemandDiffers(expected: Expected)
    requires expected.mode == Rpc && expected.cursor.None? && expected.wait.None?
    ensures AllValid([PlainLane], expected)
    ensures BaselineDemand([PlainLane]) == 1 && Total([PlainLane], Attempts) == 0
  {
    PlainLanePasses(expected);
    PlainSums();
  }

  lemma PlainTables()
    ensures Sum(PlainLane.waits) == 1 && Sum(PlainLane.dispatches) == 2
    ensures At(PlainLane.dispatches, OwnerRelease) == At(PlainLane.dispatches, ReadMetadata) == 1
    ensures Has(PlainLane.dispatches, OwnerRelease)
  {
    var d := PlainLane.dispatches;
    assert d[..1] == [(OwnerRelease, 1)] && [(OwnerRelease, 1)][..0] == [];
    assert d[0].0 == OwnerRelease;
  }
}
