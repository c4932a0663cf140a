/** The whole derivation of a profile, with every refusal, and the tables of the
    benchmark itself. */
module ManifestDerive {
  import opened Options
  import opened ManifestModel
  import opened ManifestProfile

  datatype Error =
    | UnknownMode | UnknownPhase | ExtendedPhase | CustomModified | BadFlag | NothingEnabled
    | LacksPrerequisite | NotStandard | OfficialChanged | BadStonewall | BadItems | NoMdtest

  datatype Shape = Official | Custom | Upstream

  datatype Profile = Profile(phases: seq<Section>, requested: seq<Section>, shape: Shape)

  datatype Result = Ok(profile: Profile) | Err(error: Error)

  datatype Mode = Standard | Extended | OtherMode(name: string)

  /** What the caller asks for. */
  datatype Request = Request(
    standardSource: bool, enabled: seq<Section>, mode: Mode, stonewall: Option<int>, items: Option<int>)

  predicate MdtestGroup(g: Section) {
    || g.MdtestEasy? || g.MdtestHard? || g.MdtestEasyWrite? || g.MdtestEasyStat? || g.MdtestEasyDelete?
    || g.MdtestHardWrite? || g.MdtestHardStat? || g.MdtestHardRead? || g.MdtestHardDelete?
    || (g.Other? && "mdtest-" <= g.name)
  }

  /** These are the sections whose names start so. */
  lemma MdtestByName(g: Section)
    ensures MdtestGroup(g) <==> "mdtest-" <= NameOf(g)
  {
    StartsSo(NameOf(g));
  }

  lemma StartsSo(name: string)
    ensures "mdtest-" <= name <==>
              |name| >= 7 && name[0] == 'm' && name[1] == 'd' && name[2] == 't' && name[3] == 'e' && name[4] == 's'
              && name[5] == 't' && name[6] == '-'
  {
    if |name| >= 7 && name[0] == 'm' && name[1] == 'd' && name[2] == 't' && name[3] == 'e' && name[4] == 's'
       && name[5] == 't' && name[6] == '-' {
      assert name[..7] == "mdtest-";
    }
  }

  function MdtestGroups(t: Tables, phases: seq<Section>): set<Section> {
    set p | p in phases && Group(t, p).Some? && MdtestGroup(Group(t, p).value) :: Group(t, p).value
  }

  /** The pinned standard file says what it must. */
  predicate PinnedStandard(text: Text, s: Settings)
    requires s.Valid()
  {
    && Lookup(text, s, Global, "scc") == Some("FALSE")
    && Lookup(text, s, Debug, "stonewall-time") == Some("300")
  }

  predicate Positive(x: Option<int>) {
    x.Some? ==> x.value > 0
  }

  /** A custom file is taken as it is: flags all set, something enabled, nothing lacking. */
  predicate CustomFine(text: Text, t: Tables, s: Settings, mode: seq<Section>, req: Request)
    requires s.Valid()
  {
    && req.enabled == [] && req.stonewall.None? && req.items.None?
    && AllSet(text, t, s, mode) && Running(text, t, s, mode) != {} && Closed(t, Running(text, t, s, mode))
  }

  predicate HasMdtest(t: Tables, c: set<Section>) {
    exists p :: p in c && Group(t, p).Some? && MdtestGroup(Group(t, p).value)
  }

  /** A selection from the standard file. */
  ghost predicate SelectionFine(t: Tables, req: Request) {
    && Positive(req.stonewall) && Positive(req.items)
    && (req.items.Some? ==>
          exists c :: Least(t, Elements(req.enabled), c) && HasMdtest(t, c))
  }

  /** What a selection may change: the run flags of the known sections, the stonewall time
      that was asked for, and the object count in the MDTest groups of the phases. */
  ghost function Touched(text: Text, t: Tables, req: Request, phases: seq<Section>): (Section, string) -> bool {
    (x, name) =>
      || (x in RunSections(t) && text.lower(name) == text.lower("run"))
      || Limit(text, req, MdtestGroups(t, phases))(x, name)
  }

  ghost function Limit(text: Text, req: Request, groups: set<Section>): (Section, string) -> bool {
    (x, name) =>
      || (req.stonewall.Some? && x == Debug && text.lower(name) == text.lower("stonewall-time"))
      || (req.items.Some? && x in groups && text.lower(name) == text.lower("n"))
  }

  /** The limits that were asked for are set. */
  ghost predicate LimitsSet(text: Text, s: Settings, req: Request, groups: set<Section>) {
    && (req.stonewall.Some? ==> Say(text, s, {Debug}, "stonewall-time", text.decimal(req.stonewall.value)))
    && (req.items.Some? ==> Say(text, s, groups, "n", text.decimal(req.items.value)))
  }

  /** When a profile can be derived. */
  ghost predicate Derivable(text: Text, t: Tables, modes: map<Mode, seq<Section>>, s: Settings, req: Request)
    requires s.Valid()
  {
    && req.mode in modes
    && Elements(req.enabled) <= Elements(modes[req.mode])
    && if !req.standardSource then CustomFine(text, t, s, modes[req.mode], req)
       else
         && PinnedStandard(text, s)
         && if req.enabled == [] then req.stonewall.None? && req.items.None? else SelectionFine(t, req)
  }

  /** The mode is known and offers every phase that was asked for. */
  predicate Offered(modes: map<Mode, seq<Section>>, req: Request) {
    req.mode in modes && Elements(req.enabled) <= Elements(modes[req.mode])
  }

  predicate Unchanged(req: Request) {
    req.stonewall.None? && req.items.None?
  }

  /** Why a custom file is refused. */
  ghost predicate CustomRefused(text: Text, t: Tables, s: Settings, mode: seq<Section>, req: Request, e: Error)
    requires s.Valid()
  {
    var asIs := req.enabled == [] && Unchanged(req);
    && (e.CustomModified? <==> !asIs)
    && (e.BadFlag? <==> asIs && !AllSet(text, t, s, mode))
    && (e.NothingEnabled? <==> asIs && AllSet(text, t, s, mode) && Running(text, t, s, mode) == {})
    && (e.LacksPrerequisite? <==>
          asIs && AllSet(text, t, s, mode) && Running(text, t, s, mode) != {} && !Closed(t, Running(text, t, s, mode)))
  }

  /** Why a selection is refused. */
  ghost predicate SelectionRefused(t: Tables, req: Request, e: Error) {
    && (e.BadStonewall? <==> !Positive(req.stonewall))
    && (e.BadItems? <==> Positive(req.stonewall) && !Positive(req.items))
    && (e.NoMdtest? <==> Positive(req.stonewall) && Positive(req.items) && !SelectionFine(t, req))
  }

  /** Exactly when each refusal is given. */
  ghost predicate RefusedFor(
    text: Text, t: Tables, modes: map<Mode, seq<Section>>, s: Settings, req: Request, e: Error)
    requires s.Valid()
  {
    && (e.UnknownMode? <==> req.mode !in modes)
    && (e.UnknownPhase? <==> req.mode in modes && exists p :: p in req.enabled && p !in t.order)
    && (e.ExtendedPhase? <==>
          req.mode in modes && !Offered(modes, req) && forall p :: p in req.enabled ==> p in t.order)
    && (Offered(modes, req) ==>
          if !req.standardSource then CustomRefused(text, t, s, modes[req.mode], req, e)
          else
            && (e.NotStandard? <==> !PinnedStandard(text, s))
            && (e.OfficialChanged? <==> PinnedStandard(text, s) && req.enabled == [] && !Unchanged(req))
            && (PinnedStandard(text, s) && req.enabled != [] ==> SelectionRefused(t, req, e)))
  }

  /** What a derived profile is, and what the configuration then says. */
  ghost predicate Derived(text: Text, t: Tables, mode: seq<Section>, s: Settings, s': Settings, req: Request, p: Profile)
    requires s.Valid()
  {
    && s'.Valid()
    && if !req.standardSource then
         && p == Profile(Keep(mode, Running(text, t, s, mode)), Keep(mode, Running(text, t, s, mode)), Custom)
         && s' == s
       else if req.enabled == [] then p == Profile(mode, mode, Official) && s' == s
       else
         && p.shape == Upstream
         && Least(t, Elements(req.enabled), Elements(p.phases))
         && p.phases == Keep(mode, Elements(p.phases)) && Ordered(t, p.phases)
         && p.requested == Keep(mode, Elements(req.enabled))
         && AllSet(text, t, s', mode) && Keep(mode, Running(text, t, s', mode)) == p.phases
         && LimitsSet(text, s', req, MdtestGroups(t, p.phases))
         && Spares(text, s, s', Touched(text, t, req, p.phases))
         && (forall x :: x in s'.sections ==> x in s.sections || x in RunSections(t) || (x == Debug && req.stonewall.Some?))
  }

  method CheckPrerequisites(t: Tables, phases: seq<Section>) returns (ok: bool)
    ensures ok <==> Closed(t, Elements(phases))
  {
    var i := 0;
    while i < |phases|
      invariant 0 <= i <= |phases|
      invariant forall k :: 0 <= k < i ==> Follows(t, phases[k], phases)
    {
      if !Follows(t, phases[i], phases) {
        assert phases[i] in Elements(phases);
        return false;
      }
      i := i + 1;
    }
    return true;
  }

  method DeriveCustom(text: Text, t: Tables, config: Config, mode: seq<Section>, req: Request) returns (r: Result)
    requires config.View().Valid() && !req.standardSource
    ensures r.Ok? <==> CustomFine(text, t, config.View(), mode, req)
    ensures r.Ok? ==> Derived(text, t, mode, config.View(), config.View(), req, r.profile)
    ensures r.Err? ==> CustomRefused(text, t, config.View(), mode, req, r.error)
    ensures r.Err? ==> r.error in {CustomModified, BadFlag, NothingEnabled, LacksPrerequisite}
  {
    if req.enabled != [] || req.stonewall.Some? || req.items.Some? {
      return Err(CustomModified);
    }
    var configured := config.ConfiguredPhases(text, t, mode);
    if configured.None? {
      return Err(BadFlag);
    }
    var phases := configured.value;
    assert Elements(phases) == Running(text, t, config.View(), mode);
    if phases == [] {
      assert Running(text, t, config.View(), mode) == {};
      return Err(NothingEnabled);
    }
    assert phases[0] in Running(text, t, config.View(), mode);
    var fine := CheckPrerequisites(t, phases);
    if !fine {
      return Err(LacksPrerequisite);
    }
    return Ok(Profile(phases, phases, Custom));
  }

  lemma LeastUnique(t: Tables, requested: set<Section>, c: set<Section>, c': set<Section>)
    requires Least(t, requested, c) && Least(t, requested, c')
    ensures c == c'
  {
  }

  lemma ItemsNeedMdtest(t: Tables, req: Request, phases: seq<Section>)
    requires Least(t, Elements(req.enabled), Elements(phases))
    ensures SelectionFine(t, req) <==>
              Positive(req.stonewall) && Positive(req.items)
              && (req.items.Some? ==> MdtestGroups(t, phases) != {})
  {
    if req.items.Some? && MdtestGroups(t, phases) != {} {
      var g :| g in MdtestGroups(t, phases);
      var p :| p in phases && Group(t, p) == Some(g) && MdtestGroup(g);
      assert p in Elements(phases) && HasMdtest(t, Elements(phases));
    }
    if SelectionFine(t, req) && req.items.Some? {
      var c :| Least(t, Elements(req.enabled), c) && HasMdtest(t, c);
      LeastUnique(t, Elements(req.enabled), c, Elements(phases));
      var p :| p in c && Group(t, p).Some? && MdtestGroup(Group(t, p).value);
      assert Group(t, p).value in MdtestGroups(t, phases);
    }
  }

  lemma FlagsPersist(text: Text, s: Settings, s': Settings, sections: seq<Section>, enabled: set<Section>,
                     touched: (Section, string) -> bool)
    requires Flagged(text, s, sections, enabled) && Spares(text, s, s', touched) && forall x :: !touched(x, "run")
    ensures Flagged(text, s', sections, enabled)
  {
    forall x | x in sections
      ensures x in s'.sections && Flag(text, s', x) == Some(x in enabled)
    {
      SparedLookup(text, s, s', touched, x, "run");
    }
  }

  lemma MdtestIsNotDebug(t: Tables, phases: seq<Section>)
    ensures Debug !in MdtestGroups(t, phases)
  {
  }

  lemma GroupsAreKnown(t: Tables, phases: seq<Section>)
    ensures forall g :: g in MdtestGroups(t, phases) ==> g in RunSections(t)
  {
  }

  method SetStonewall(text: Text, config: Config, req: Request, ghost groups: set<Section>)
    requires config.View().Valid() && req.stonewall.Some?
    modifies config
    ensures Say(text, config.View(), {Debug}, "stonewall-time", text.decimal(req.stonewall.value))
    ensures Spares(text, old(config.View()), config.View(), Limit(text, req, groups))
    ensures config.sections.Keys == old(config.sections.Keys) + {Debug}
  {
    var v := text.decimal(req.stonewall.value);
    PutSpares(text, config.View(), Debug, "stonewall-time", v, Limit(text, req, groups));
    PutSaysMore(text, config.View(), {}, "stonewall-time", v, Debug);
    assert {} + {Debug} == {Debug};
    config.SetOption(text, Debug, "stonewall-time", v);
  }

  /** The stonewall survives the object counts. */
  lemma SayPersists(text: Text, s: Settings, s': Settings, groups: set<Section>, v: string)
    requires Say(text, s, {Debug}, "stonewall-time", v) && Debug in s.sections && Debug !in groups
    requires Spares(text, s, s', NamedIn(text, groups, "n"))
    ensures Say(text, s', {Debug}, "stonewall-time", v)
  {
    SparedLookup(text, s, s', NamedIn(text, groups, "n"), Debug, "stonewall-time");
  }

  /** The limits that a selection may change, set after its run flags. */
  method SetLimits(text: Text, t: Tables, config: Config, phases: seq<Section>, req: Request) returns (error: Option<Error>)
    requires Lawful(text) && config.View().Valid()
    modifies config
    ensures error.None? <==>
              Positive(req.stonewall) && Positive(req.items) && (req.items.Some? ==> MdtestGroups(t, phases) != {})
    ensures error == Some(BadStonewall) <==> !Positive(req.stonewall)
    ensures error == Some(BadItems) <==> Positive(req.stonewall) && !Positive(req.items)
    ensures error.None? || error.value in {BadStonewall, BadItems, NoMdtest}
    ensures error.None? ==> LimitsSet(text, config.View(), req, MdtestGroups(t, phases))
    ensures Spares(text, old(config.View()), config.View(), Limit(text, req, MdtestGroups(t, phases)))
    ensures config.sections.Keys <= old(config.sections.Keys) + MdtestGroups(t, phases)
                                    + if req.stonewall.Some? then {Debug} else {}
  {
    ghost var may := Limit(text, req, MdtestGroups(t, phases));
    if req.stonewall.Some? {
      if req.stonewall.value <= 0 {
        return Some(BadStonewall);
      }
      SetStonewall(text, config, req, MdtestGroups(t, phases));
    }
    if req.items.Some? {
      if req.items.value <= 0 {
        return Some(BadItems);
      }
      var groups := MdtestGroups(t, phases);
      if groups == {} {
        return Some(NoMdtest);
      }
      ghost var before := config.View();
      SetItems(text, config, groups, req.items.value);
      SparesMore(text, before, config.View(), NamedIn(text, groups, "n"), may);
      SparesTwice(text, old(config.View()), before, config.View(), may);
      if req.stonewall.Some? {
        MdtestIsNotDebug(t, phases);
        SayPersists(text, before, config.View(), groups, text.decimal(req.stonewall.value));
      }
    }
    return None;
  }

  method DeriveSelection(text: Text, t: Tables, config: Config, mode: seq<Section>, req: Request) returns (r: Result)
    requires Lawful(text) && config.View().Valid() && Sound(t, mode)
    requires req.standardSource && req.enabled != [] && Elements(req.enabled) <= Elements(mode)
    modifies config
    ensures r.Ok? <==> SelectionFine(t, req)
    ensures r.Ok? ==> Derived(text, t, mode, old(config.View()), config.View(), req, r.profile)
    ensures r.Err? ==> SelectionRefused(t, req, r.error) && r.error in {BadStonewall, BadItems, NoMdtest}
  {
    var closure := Close(t, Distinct(req.enabled));
    assert Elements(Distinct(req.enabled)) == Elements(req.enabled);
    FilteredClosure(t, mode, Elements(req.enabled), closure);
    var ordered, requested := Keep(mode, closure), Keep(mode, Elements(req.enabled));
    SetRunFlags(text, config, RunSections(t), EnabledSections(t, ordered));
    ghost var flagged := config.View();
    var error := SetLimits(text, t, config, ordered, req);
    ItemsNeedMdtest(t, req, ordered);
    if error.Some? {
      return Err(error.value);
    }
    SelectionIsDerived(text, t, mode, old(config.View()), flagged, config.View(), req, closure);
    return Ok(Profile(ordered, requested, Upstream));
  }

  /** Run flags and then limits make what the profile says. */
  lemma SelectionIsDerived(text: Text, t: Tables, mode: seq<Section>, s: Settings, flagged: Settings, s': Settings,
                           req: Request, closure: set<Section>)
    requires Lawful(text) && Sound(t, mode) && req.standardSource && req.enabled != []
    requires Elements(req.enabled) <= Elements(mode) && Least(t, Elements(req.enabled), closure)
    requires Flagged(text, flagged, RunSections(t), EnabledSections(t, Keep(mode, closure)))
    requires Spares(text, s, flagged, NamedIn(text, Elements(RunSections(t)), "run"))
    requires forall x :: x in flagged.sections <==> x in s.sections || x in RunSections(t)
    requires Spares(text, flagged, s', Limit(text, req, MdtestGroups(t, Keep(mode, closure))))
    requires LimitsSet(text, s', req, MdtestGroups(t, Keep(mode, closure)))
    requires s'.sections.Keys <= flagged.sections.Keys + MdtestGroups(t, Keep(mode, closure))
                                 + if req.stonewall.Some? then {Debug} else {}
    ensures Derived(text, t, mode, s, s', req, Profile(Keep(mode, closure), Keep(mode, Elements(req.enabled)), Upstream))
  {
    var phases := Keep(mode, closure);
    FilteredClosure(t, mode, Elements(req.enabled), closure);
    FlagsPersist(text, flagged, s', RunSections(t), EnabledSections(t, phases), Limit(text, req, MdtestGroups(t, phases)));
    ReadBack(text, t, s', mode, closure);
    GroupsAreKnown(t, phases);
    SelectionSpares(text, t, s, flagged, s', req, phases);
  }

  lemma SelectionSpares(
      text: Text, t: Tables, s: Settings, flagged: Settings, s': Settings, req: Request, phases: seq<Section>)
    requires Spares(text, s, flagged, NamedIn(text, Elements(RunSections(t)), "run"))
    requires Spares(text, flagged, s', Limit(text, req, MdtestGroups(t, phases)))
    ensures Spares(text, s, s', Touched(text, t, req, phases))
  {
    SparesMore(text, s, flagged, NamedIn(text, Elements(RunSections(t)), "run"), Touched(text, t, req, phases));
    SparesMore(text, flagged, s', Limit(text, req, MdtestGroups(t, phases)), Touched(text, t, req, phases));
    SparesTwice(text, s, flagged, s', Touched(text, t, req, phases));
  }

  /** A profile is derived exactly when it can be, and is then what it should be. */
  method DeriveProfile(text: Text, t: Tables, modes: map<Mode, seq<Section>>, config: Config, req: Request)
    returns (r: Result)
    requires Lawful(text) && config.View().Valid()
    requires req.mode in modes ==> Sound(t, modes[req.mode])
    modifies config
    ensures r.Ok? <==> Derivable(text, t, modes, old(config.View()), req)
    ensures r.Ok? ==> Derived(text, t, modes[req.mode], old(config.View()), config.View(), req, r.profile)
    ensures r.Err? ==> RefusedFor(text, t, modes, old(config.View()), req, r.error)
  {
    if req.mode !in modes {
      return Err(UnknownMode);
    }
    var mode := modes[req.mode];
    if !(Elements(req.enabled) <= Elements(t.order)) {
      assert Elements(mode) <= Elements(t.order);
      ghost var p :| p in Elements(req.enabled) && p !in Elements(t.order);
      assert p in req.enabled && p !in t.order;
      return Err(UnknownPhase);
    }
    assert forall p :: p in req.enabled ==> p in Elements(req.enabled);
    if !(Elements(req.enabled) <= Elements(mode)) {
      return Err(ExtendedPhase);
    }
    if !req.standardSource {
      r := DeriveCustom(text, t, config, mode, req);
      return;
    }
    if !PinnedStandard(text, config.View()) {
      return Err(NotStandard);
    }
    if req.enabled == [] {
      if req.stonewall.Some? || req.items.Some? {
        return Err(OfficialChanged);
      }
      return Ok(Profile(mode, mode, Official));
    }
    r := DeriveSelection(text, t, config, mode, req);
  }

  // --- The benchmark's own tables --------------------------------------------------

  const EXTENDED_ORDER: seq<Section> := [
    IorEasyWrite, IorRnd4KWrite, MdtestEasyWrite, IorRnd1MBWrite, MdworkbenchCreate, FindEasy, IorHardWrite,
    MdtestHardWrite, Find, IorRnd4KRead, IorRnd1MBRead, FindHard, MdworkbenchBench, IorEasyRead, MdtestEasyStat,
    IorHardRead, MdtestHardStat, MdworkbenchDelete, MdtestEasyDelete, MdtestHardRead, MdtestHardDelete,
    IorRnd4KEasyRead]

  predicate ExtendedOnly(s: Section) {
    || s.IorRnd4KWrite? || s.IorRnd4KRead? || s.IorRnd1MBWrite? || s.IorRnd1MBRead? || s.MdworkbenchCreate?
    || s.MdworkbenchBench? || s.MdworkbenchDelete? || s.FindEasy? || s.FindHard?
  }

  const STANDARD: set<Section> := set p | p in EXTENDED_ORDER && !ExtendedOnly(p)

  const STANDARD_ORDER: seq<Section> := Keep(EXTENDED_ORDER, STANDARD)

  function NeededBy(phase: Section): seq<Section> {
    match phase
    case IorEasyRead => [IorEasyWrite]
    case IorHardRead => [IorHardWrite]
    case IorRnd4KRead => [IorRnd4KWrite]
    case IorRnd1MBRead => [IorRnd1MBWrite]
    case IorRnd4KEasyRead => [IorEasyWrite]
    case MdtestEasyStat => [MdtestEasyWrite]
    case MdtestEasyDelete => [MdtestEasyWrite]
    case MdtestHardStat => [MdtestHardWrite]
    case MdtestHardRead => [MdtestHardWrite]
    case MdtestHardDelete => [MdtestHardWrite]
    case FindEasy => [MdtestEasyWrite]
    case Find => [MdtestEasyWrite, MdtestHardWrite]
    case FindHard => [MdtestHardWrite]
    case MdworkbenchBench => [MdworkbenchCreate]
    case MdworkbenchDelete => [MdworkbenchCreate]
    case _ => []
  }

  const PREREQUISITES: map<Section, seq<Section>> := map p | p in EXTENDED_ORDER && NeededBy(p) != [] :: NeededBy(p)

  const GROUPED: seq<(Section, Section)> := [
    (IorEasyWrite, IorEasy), (IorEasyRead, IorEasy),
    (MdtestEasyWrite, MdtestEasy), (MdtestEasyStat, MdtestEasy), (MdtestEasyDelete, MdtestEasy),
    (IorHardWrite, IorHard), (IorHardRead, IorHard),
    (MdtestHardWrite, MdtestHard), (MdtestHardStat, MdtestHard), (MdtestHardRead, MdtestHard),
    (MdtestHardDelete, MdtestHard),
    (IorRnd4KWrite, IorRnd4K), (IorRnd4KRead, IorRnd4K), (IorRnd4KEasyRead, IorRnd4K),
    (IorRnd1MBWrite, IorRnd1MB), (IorRnd1MBRead, IorRnd1MB),
    (MdworkbenchCreate, Mdworkbench), (MdworkbenchBench, Mdworkbench), (MdworkbenchDelete, Mdworkbench)]

  const TABLES: Tables := Tables(EXTENDED_ORDER, GROUPED, PREREQUISITES)

  predicate IsGroup(s: Section) {
    s.IorEasy? || s.MdtestEasy? || s.IorHard? || s.MdtestHard? || s.IorRnd4K? || s.IorRnd1MB? || s.Mdworkbench?
  }

  lemma {:induction false} GroupNamesOnly(grouped: seq<(Section, Section)>)
    requires forall i :: 0 <= i < |grouped| ==> IsGroup(grouped[i].1)
    ensures forall g :: g in Names(grouped) ==> IsGroup(g)
  {
    if grouped != [] {
      GroupNamesOnly(grouped[1..]);
    }
  }

  /** A phase's place in the extended order. */
  function Place(s: Section): int {
    match s
    case IorEasyWrite => 0 case IorRnd4KWrite => 1 case MdtestEasyWrite => 2 case IorRnd1MBWrite => 3
    case MdworkbenchCreate => 4 case FindEasy => 5 case IorHardWrite => 6 case MdtestHardWrite => 7
    case Find => 8 case IorRnd4KRead => 9 case IorRnd1MBRead => 10 case FindHard => 11
    case MdworkbenchBench => 12 case IorEasyRead => 13 case MdtestEasyStat => 14 case IorHardRead => 15
    case MdtestHardStat => 16 case MdworkbenchDelete => 17 case MdtestEasyDelete => 18
    case MdtestHardRead => 19 case MdtestHardDelete => 20 case IorRnd4KEasyRead => 21
    case _ => -1
  }

  lemma Places(j: int)
    requires 0 <= j < |EXTENDED_ORDER|
    ensures Place(EXTENDED_ORDER[j]) == j
  {
  }

  lemma PlaceIsIndex(s: Section)
    requires Place(s) >= 0
    ensures Place(s) < |EXTENDED_ORDER| && EXTENDED_ORDER[Place(s)] == s
  {
  }

  lemma NeedsComeFirst(p: Section, q: Section)
    requires q in NeededBy(p)
    ensures 0 <= Place(q) < Place(p)
    ensures !ExtendedOnly(p) ==> !ExtendedOnly(q)
  {
  }

  lemma ExtendedOrdered()
    ensures Ordered(TABLES, EXTENDED_ORDER)
  {
    forall j | 0 <= j < |EXTENDED_ORDER|
      ensures Follows(TABLES, EXTENDED_ORDER[j], EXTENDED_ORDER[..j])
    {
      Places(j);
      forall q | q in Needs(TABLES, EXTENDED_ORDER[j])
        ensures q in EXTENDED_ORDER[..j]
      {
        NeedsComeFirst(EXTENDED_ORDER[j], q);
        PlaceIsIndex(q);
        assert EXTENDED_ORDER[..j][Place(q)] == q;
      }
    }
  }

  lemma GroupsAreNotPhases()
    ensures forall g :: g in Names(GROUPED) ==> g !in EXTENDED_ORDER
  {
    GroupNamesOnly(GROUPED);
    forall g | IsGroup(g)
      ensures g !in EXTENDED_ORDER
    {
      if g in EXTENDED_ORDER {
        var j :| 0 <= j < |EXTENDED_ORDER| && EXTENDED_ORDER[j] == g;
        Places(j);
      }
    }
  }

  lemma KnownIsStandard(q: Section)
    requires Place(q) >= 0 && !ExtendedOnly(q)
    ensures q in STANDARD
  {
    PlaceIsIndex(q);
  }

  lemma StandardIsClosed(p: Section, q: Section)
    requires p in STANDARD && q in Needs(TABLES, p)
    ensures q in STANDARD
  {
    assert q in NeededBy(p);
    NeedsComeFirst(p, q);
    KnownIsStandard(q);
  }

  lemma StandardOrdered()
    ensures Ordered(TABLES, STANDARD_ORDER)
  {
    ExtendedOrdered();
    forall p | p in EXTENDED_ORDER && p in STANDARD
      ensures forall q :: q in Needs(TABLES, p) ==> q in STANDARD
    {
      forall q | q in Needs(TABLES, p)
        ensures q in STANDARD
      {
        StandardIsClosed(p, q);
      }
    }
    KeepOrdered(TABLES, EXTENDED_ORDER, STANDARD);
  }

  /** The standard mode meets what the derivation needs of its tables. */
  lemma StandardIsSound()
    ensures Sound(TABLES, STANDARD_ORDER)
  {
    GroupsAreNotPhases();
    StandardOrdered();
  }

  /** So does the extended mode. */
  lemma ExtendedIsSound()
    ensures Sound(TABLES, EXTENDED_ORDER)
  {
    GroupsAreNotPhases();
    ExtendedOrdered();
  }

  lemma {:induction false} GroupInNone(grouped: seq<(Section, Section)>, p: Section)
    requires forall i :: 0 <= i < |grouped| ==> grouped[i].0 != p
    ensures GroupIn(grouped, p).None?
  {
    if grouped != [] {
      GroupInNone(grouped[1..], p);
    }
  }

  lemma {:induction false} GroupInFirst(grouped: seq<(Section, Section)>, i: nat)
    requires i < |grouped| && forall j :: 0 <= j < i ==> grouped[j].0 != grouped[i].0
    ensures GroupIn(grouped, grouped[i].0) == Some(grouped[i].1)
  {
    if i > 0 {
      GroupInFirst(grouped[1..], i - 1);
    }
  }

  predicate EasyPhase(p: Section) {
    p.MdtestEasyWrite? || p.MdtestEasyStat? || p.MdtestEasyDelete?
  }

  predicate HardPhase(p: Section) {
    p.MdtestHardWrite? || p.MdtestHardStat? || p.MdtestHardRead? || p.MdtestHardDelete?
  }

  /** A phase's place among the grouped phases. */
  function Slot(s: Section): int {
    match s
    case IorEasyWrite => 0 case IorEasyRead => 1 case MdtestEasyWrite => 2 case MdtestEasyStat => 3
    case MdtestEasyDelete => 4 case IorHardWrite => 5 case IorHardRead => 6 case MdtestHardWrite => 7
    case MdtestHardStat => 8 case MdtestHardRead => 9 case MdtestHardDelete => 10 case IorRnd4KWrite => 11
    case IorRnd4KRead => 12 case IorRnd4KEasyRead => 13 case IorRnd1MBWrite => 14 case IorRnd1MBRead => 15
    case MdworkbenchCreate => 16 case MdworkbenchBench => 17 case MdworkbenchDelete => 18
    case _ => -1
  }

  lemma Slots(i: int)
    requires 0 <= i < |GROUPED|
    ensures Slot(GROUPED[i].0) == i
  {
  }

  lemma SlotIsIndex(p: Section)
    requires Slot(p) >= 0
    ensures Slot(p) < |GROUPED| && GROUPED[Slot(p)].0 == p
  {
  }

  lemma GroupOfSlot(p: Section)
    requires Slot(p) >= 0
    ensures Slot(p) < |GROUPED| && Group(TABLES, p) == Some(GROUPED[Slot(p)].1)
  {
    SlotIsIndex(p);
    forall j | 0 <= j < Slot(p)
      ensures GROUPED[j].0 != p
    {
      Slots(j);
    }
    GroupInFirst(GROUPED, Slot(p));
  }

  /** The MDTest phases and no others are in an MDTest group. */
  lemma GroupNames(i: int)
    requires 0 <= i < |GROUPED|
    ensures GROUPED[i].1 == if 2 <= i <= 4 then MdtestEasy else if 7 <= i <= 10 then MdtestHard else GROUPED[i].1
    ensures (i < 2 || 4 < i < 7 || 10 < i) ==> !MdtestGroup(GROUPED[i].1)
  {
  }

  lemma NoSlot(p: Section)
    requires Slot(p) < 0
    ensures Group(TABLES, p).None?
  {
    forall i | 0 <= i < |GROUPED|
      ensures GROUPED[i].0 != p
    {
      Slots(i);
    }
    GroupInNone(GROUPED, p);
  }

  predicate AtHome(p: Section, g: Option<Section>) {
    && (EasyPhase(p) ==> g == Some(MdtestEasy))
    && (HardPhase(p) ==> g == Some(MdtestHard))
    && (!EasyPhase(p) && !HardPhase(p) && g.Some? ==> !MdtestGroup(g.value))
  }

  lemma SlotAtHome(p: Section, i: int, g: Section)
    requires i == Slot(p) && 0 <= i < |GROUPED| && g == GROUPED[i].1
    ensures AtHome(p, Some(g))
  {
    GroupNames(i);
  }

  lemma MdtestPhase(p: Section)
    ensures AtHome(p, Group(TABLES, p))
  {
    if Slot(p) >= 0 {
      GroupedAtHome(p);
    } else {
      NoSlot(p);
      UngroupedAtHome(p);
    }
  }

  lemma GroupedAtHome(p: Section)
    requires Slot(p) >= 0
    ensures AtHome(p, Group(TABLES, p))
  {
    GroupOfSlot(p);
    SlotAtHome(p, Slot(p), GROUPED[Slot(p)].1);
  }

  lemma UngroupedAtHome(p: Section)
    requires Slot(p) < 0
    ensures AtHome(p, None)
  {
  }

  lemma GroupsAtHome(t: Tables, phases: seq<Section>, g: Section)
    requires forall p :: AtHome(p, Group(t, p))
    ensures g in MdtestGroups(t, phases) <==>
              || (g == MdtestEasy && exists p :: p in phases && EasyPhase(p))
              || (g == MdtestHard && exists p :: p in phases && HardPhase(p))
  {
  }

  /** In the benchmark the groups that take an object count are the two MDTest groups, each
      when one of its phases runs. */
  lemma MdtestGroupsOfBenchmark(phases: seq<Section>, g: Section)
    ensures g in MdtestGroups(TABLES, phases) <==>
              || (g == MdtestEasy && exists p :: p in phases && EasyPhase(p))
              || (g == MdtestHard && exists p :: p in phases && HardPhase(p))
  {
    forall p
      ensures AtHome(p, Group(TABLES, p))
    {
      MdtestPhase(p);
    }
    GroupsAtHome(TABLES, phases, g);
  }
}
