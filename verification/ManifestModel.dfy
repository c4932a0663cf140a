/** The evaluation manifest: the run flags of an IO500 configuration file, the phase
    tables, and the derivation of a profile from the phases that were asked for. */
module ManifestModel {
  import opened Options

  /** Section names.  The benchmark's own are spelled out; a file may hold any others. */
  datatype Section =
    | IorEasyWrite | IorRnd4KWrite | MdtestEasyWrite | IorRnd1MBWrite | MdworkbenchCreate | FindEasy
    | IorHardWrite | MdtestHardWrite | Find | IorRnd4KRead | IorRnd1MBRead | FindHard | MdworkbenchBench
    | IorEasyRead | MdtestEasyStat | IorHardRead | MdtestHardStat | MdworkbenchDelete | MdtestEasyDelete
    | MdtestHardRead | MdtestHardDelete | IorRnd4KEasyRead
    | IorEasy | MdtestEasy | IorHard | MdtestHard | IorRnd4K | IorRnd1MB | Mdworkbench
    | Global | Debug | Other(name: string)

  /** A section's name in the file. */
  function NameOf(s: Section): string {
    match s
    case IorEasyWrite => "ior-easy-write"
    case IorRnd4KWrite => "ior-rnd4K-write"
    case MdtestEasyWrite => "mdtest-easy-write"
    case IorRnd1MBWrite => "ior-rnd1MB-write"
    case MdworkbenchCreate => "mdworkbench-create"
    case FindEasy => "find-easy"
    case IorHardWrite => "ior-hard-write"
    case MdtestHardWrite => "mdtest-hard-write"
    case Find => "find"
    case IorRnd4KRead => "ior-rnd4K-read"
    case IorRnd1MBRead => "ior-rnd1MB-read"
    case FindHard => "find-hard"
    case MdworkbenchBench => "mdworkbench-bench"
    case IorEasyRead => "ior-easy-read"
    case MdtestEasyStat => "mdtest-easy-stat"
    case IorHardRead => "ior-hard-read"
    case MdtestHardStat => "mdtest-hard-stat"
    case MdworkbenchDelete => "mdworkbench-delete"
    case MdtestEasyDelete => "mdtest-easy-delete"
    case MdtestHardRead => "mdtest-hard-read"
    case MdtestHardDelete => "mdtest-hard-delete"
    case IorRnd4KEasyRead => "ior-rnd4K-easy-read"
    case IorEasy => "ior-easy"
    case MdtestEasy => "mdtest-easy"
    case IorHard => "ior-hard"
    case MdtestHard => "mdtest-hard"
    case IorRnd4K => "ior-rnd4K"
    case IorRnd1MB => "ior-rnd1MB"
    case Mdworkbench => "mdworkbench"
    case Global => "global"
    case Debug => "debug"
    case Other(name) => name
  }

  // --- Configuration files ---------------------------------------------------------

  /** A dictionary that keeps its keys in the order in which they were first set. */
  datatype Dict = Dict(order: seq<string>, value: map<string, string>) {
    ghost predicate Valid() {
      forall k :: k in order <==> k in value
    }

    function Update(k: string, v: string): Dict {
      Dict(if k in value then order else order + [k], value[k := v])
    }
  }

  function Missing(keys: seq<string>, value: map<string, string>): seq<string> {
    if keys == [] then []
    else Missing(keys[..|keys| - 1], value)
         + if keys[|keys| - 1] in value then [] else [keys[|keys| - 1]]
  }

  /** The items of a section: the defaults, overridden and followed by its own. */
  function Merge(defaults: Dict, own: Dict): Dict {
    Dict(defaults.order + Missing(own.order, defaults.value), defaults.value + own.value)
  }

  datatype Settings = Settings(defaults: Dict, sections: map<Section, Dict>) {
    ghost predicate Valid() {
      defaults.Valid() && forall s :: s in sections ==> sections[s].Valid()
    }

    function Items(s: Section): Dict
      requires s in sections
    {
      Merge(defaults, sections[s])
    }
  }

  /** The string operations of the host language. */
  datatype Text = Text(
    lower: string -> string, upper: string -> string, strip: string -> string, decimal: int -> string)

  predicate Lawful(text: Text) {
    && text.upper(text.strip("TRUE")) == "TRUE" && text.upper(text.strip("FALSE")) == "FALSE"
    && text.lower("run") != text.lower("n") && text.lower("run") != text.lower("stonewall-time")
  }

  /** The first key equal to `name` up to case. */
  function Match(text: Text, keys: seq<string>, name: string): (r: Option<string>)
    ensures r.Some? ==> r.value in keys && text.lower(r.value) == text.lower(name)
    ensures r.None? ==> forall k :: k in keys ==> text.lower(k) != text.lower(name)
  {
    if keys == [] then None
    else if text.lower(keys[0]) == text.lower(name) then Some(keys[0])
    else Match(text, keys[1..], name)
  }

  function Lookup(text: Text, s: Settings, section: Section, name: string): Option<string>
    requires s.Valid()
  {
    if section !in s.sections then None
    else
      MergeValid(s.defaults, s.sections[section]);
      Get(text, s.Items(section), name)
  }

  function Own(s: Settings, section: Section): Dict {
    if section in s.sections then s.sections[section] else Dict([], map[])
  }

  function Put(text: Text, s: Settings, section: Section, name: string, v: string): Settings {
    var own := Own(s, section);
    s.(sections := s.sections[section := own.Update(Target(text, Merge(s.defaults, own), name), v)])
  }

  lemma {:induction false} MissingIs(keys: seq<string>, value: map<string, string>)
    ensures forall k :: k in Missing(keys, value) <==> k in keys && k !in value
  {
    if keys != [] {
      MissingIs(keys[..|keys| - 1], value);
      assert keys == keys[..|keys| - 1] + [keys[|keys| - 1]];
    }
  }

  lemma MergeValid(defaults: Dict, own: Dict)
    requires defaults.Valid() && own.Valid()
    ensures Merge(defaults, own).Valid()
  {
    MissingIs(own.order, defaults.value);
  }

  lemma MissingSnoc(keys: seq<string>, k: string, value: map<string, string>)
    ensures Missing(keys + [k], value) == Missing(keys, value) + if k in value then [] else [k]
  {
    assert (keys + [k])[..|keys|] == keys;
  }

  lemma MergeOrder(defaults: Dict, own: Dict, k: string, v: string)
    requires defaults.Valid() && own.Valid()
    ensures Merge(defaults, own.Update(k, v)).order == Merge(defaults, own).Update(k, v).order
  {
    if k !in own.value {
      MissingSnoc(own.order, k, defaults.value);
      AppendMissing(defaults.order, Missing(own.order, defaults.value), k);
    }
  }

  lemma AppendMissing(a: seq<string>, b: seq<string>, k: string)
    ensures a + (b + [k]) == a + b + [k] && b + [] == b
  {
  }

  lemma PlusUpdate(a: map<string, string>, b: map<string, string>, k: string, v: string)
    ensures a + b[k := v] == (a + b)[k := v]
  {
  }

  lemma MergeUpdate(defaults: Dict, own: Dict, k: string, v: string)
    requires defaults.Valid() && own.Valid()
    ensures Merge(defaults, own.Update(k, v)) == Merge(defaults, own).Update(k, v)
  {
    MergeOrder(defaults, own, k, v);
    PlusUpdate(defaults.value, own.value, k, v);
  }

  lemma {:induction false} MatchAppend(text: Text, keys: seq<string>, k: string, name: string)
    ensures Match(text, keys + [k], name)
            == if Match(text, keys, name).Some? then Match(text, keys, name)
               else if text.lower(k) == text.lower(name) then Some(k) else None
  {
    if keys != [] {
      assert (keys + [k])[1..] == keys[1..] + [k];
      MatchAppend(text, keys[1..], k, name);
    } else {
      assert keys + [k] == [k];
    }
  }

  /** The value that a name has in a dictionary, up to case. */
  function Get(text: Text, d: Dict, name: string): Option<string>
    requires d.Valid()
  {
    match Match(text, d.order, name)
    case None => None
    case Some(k) => Some(text.strip(d.value[k]))
  }

  /** The key that a setting writes to. */
  function Target(text: Text, d: Dict, name: string): string {
    var found := Match(text, d.order, name);
    if found.Some? then found.value else name
  }

  lemma GetAfterUpdate(text: Text, d: Dict, name: string, v: string, name': string)
    requires d.Valid()
    ensures d.Update(Target(text, d, name), v).Valid()
    ensures Get(text, d.Update(Target(text, d, name), v), name')
            == if text.lower(name') == text.lower(name) then Some(text.strip(v)) else Get(text, d, name')
  {
    var k := Target(text, d, name);
    MatchAppend(text, d.order, k, name');
    if text.lower(name') == text.lower(name) {
      SameMatch(text, d.order, name, name');
    }
  }

  lemma PutValid(text: Text, s: Settings, section: Section, name: string, v: string)
    requires s.Valid()
    ensures Put(text, s, section, name, v).Valid()
  {
  }

  lemma ItemsAfterPut(text: Text, s: Settings, section: Section, name: string, v: string)
    requires s.Valid()
    ensures var items := Merge(s.defaults, Own(s, section));
            Put(text, s, section, name, v).Items(section) == items.Update(Target(text, items, name), v)
  {
    MergeUpdate(s.defaults, Own(s, section), Target(text, Merge(s.defaults, Own(s, section)), name), v);
  }

  lemma LookupHere(text: Text, s: Settings, section: Section, name: string, v: string, name': string)
    requires s.Valid() && Put(text, s, section, name, v).Valid()
    ensures Merge(s.defaults, Own(s, section)).Valid()
    ensures Lookup(text, Put(text, s, section, name, v), section, name')
            == if text.lower(name') == text.lower(name) then Some(text.strip(v))
               else Get(text, Merge(s.defaults, Own(s, section)), name')
  {
    var items := Merge(s.defaults, Own(s, section));
    MergeValid(s.defaults, Own(s, section));
    GetAfterUpdate(text, items, name, v, name');
    ItemsAfterPut(text, s, section, name, v);
  }

  lemma LookupElsewhere(
      text: Text, s: Settings, section: Section, name: string, v: string, section': Section, name': string)
    requires s.Valid() && Put(text, s, section, name, v).Valid() && section' != section
    ensures Lookup(text, Put(text, s, section, name, v), section', name') == Lookup(text, s, section', name')
  {
  }

  /** What a lookup finds after a setting: the value just set for that section and name,
      up to case, and otherwise what it found before. */
  lemma LookupAfterPut(
      text: Text, s: Settings, section: Section, name: string, v: string, section': Section, name': string)
    requires s.Valid()
    ensures Put(text, s, section, name, v).Valid()
    ensures section' == section && text.lower(name') == text.lower(name) ==>
              Lookup(text, Put(text, s, section, name, v), section', name') == Some(text.strip(v))
    ensures section' != section || (section in s.sections && text.lower(name') != text.lower(name)) ==>
              Lookup(text, Put(text, s, section, name, v), section', name') == Lookup(text, s, section', name')
  {
    PutValid(text, s, section, name, v);
    if section' == section {
      LookupHere(text, s, section, name, v, name');
    } else {
      LookupElsewhere(text, s, section, name, v, section', name');
    }
  }

  lemma {:induction false} SameMatch(text: Text, keys: seq<string>, name: string, name': string)
    requires text.lower(name') == text.lower(name)
    ensures Match(text, keys, name') == Match(text, keys, name)
  {
    if keys != [] {
      SameMatch(text, keys[1..], name, name');
    }
  }

  // --- Tables ----------------------------------------------------------------------

  datatype Tables = Tables(
    order: seq<Section>,
    grouped: seq<(Section, Section)>,
    prerequisites: map<Section, seq<Section>>)

  function Needs(t: Tables, phase: Section): seq<Section> {
    if phase in t.prerequisites then t.prerequisites[phase] else []
  }

  function Names(grouped: seq<(Section, Section)>): seq<Section> {
    if grouped == [] then [] else [grouped[0].1] + Names(grouped[1..])
  }

  function GroupIn(grouped: seq<(Section, Section)>, phase: Section): (r: Option<Section>)
    ensures r.Some? ==> r.value in Names(grouped)
  {
    if grouped == [] then None
    else if grouped[0].0 == phase then Some(grouped[0].1)
    else GroupIn(grouped[1..], phase)
  }

  function Group(t: Tables, phase: Section): Option<Section> {
    GroupIn(t.grouped, phase)
  }

  /** The first occurrence of each element. */
  function Distinct(s: seq<Section>): (r: seq<Section>)
    ensures forall x :: x in r <==> x in s
  {
    if s == [] then []
    else
      var init := Distinct(s[..|s| - 1]);
      assert s == s[..|s| - 1] + [s[|s| - 1]];
      if s[|s| - 1] in init then init else init + [s[|s| - 1]]
  }

  function RunSections(t: Tables): seq<Section> {
    Distinct(Names(t.grouped) + t.order)
  }

  /** The elements of `order` that are in `s`, in order. */
  function Keep(order: seq<Section>, s: set<Section>): (r: seq<Section>)
    ensures forall x :: x in r <==> x in order && x in s
  {
    if order == [] then []
    else
      assert order == order[..|order| - 1] + [order[|order| - 1]];
      Keep(order[..|order| - 1], s) + if order[|order| - 1] in s then [order[|order| - 1]] else []
  }

  // --- Run flags -------------------------------------------------------------------

  /** A flag, or nothing where the source raises. */
  function ParseBool(text: Text, v: Option<string>): Option<bool> {
    if v.None? then None
    else if text.upper(v.value) == "TRUE" then Some(true)
    else if text.upper(v.value) == "FALSE" then Some(false)
    else None
  }

  function Flag(text: Text, s: Settings, section: Section): Option<bool>
    requires s.Valid()
  {
    ParseBool(text, Lookup(text, s, section, "run"))
  }

  /** Whether a phase runs: its own flag and, when it has one, its group's. */
  function Runs(text: Text, t: Tables, s: Settings, phase: Section): Option<bool>
    requires s.Valid()
  {
    var own := Flag(text, s, phase);
    if own.None? || Group(t, phase).None? then own
    else
      var shared := Flag(text, s, Group(t, phase).value);
      if shared.None? then None else Some(own.value && shared.value)
  }

  function Running(text: Text, t: Tables, s: Settings, mode: seq<Section>): set<Section>
    requires s.Valid()
  {
    set p | p in mode && Runs(text, t, s, p) == Some(true)
  }

  predicate AllSet(text: Text, t: Tables, s: Settings, mode: seq<Section>)
    requires s.Valid()
  {
    forall p :: p in mode ==> Runs(text, t, s, p).Some?
  }

  /** The configuration object. */
  class Config {
    const defaults: Dict
    var sections: map<Section, Dict>

    function View(): Settings
      reads this
    {
      Settings(defaults, sections)
    }

    constructor (s: Settings)
      ensures View() == s
    {
      defaults, sections := s.defaults, s.sections;
    }

    method SetOption(text: Text, section: Section, name: string, v: string)
      modifies this
      ensures View() == Put(text, old(View()), section, name, v)
    {
      if section !in sections {
        sections := sections[section := Dict([], map[])];
      }
      var k := Target(text, View().Items(section), name);
      sections := sections[section := sections[section].Update(k, v)];
    }

    /** The phases that the flags let run, in mode order, or nothing where a flag is
        missing or malformed. */
    method ConfiguredPhases(text: Text, t: Tables, mode: seq<Section>) returns (phases: Option<seq<Section>>)
      requires View().Valid()
      ensures phases.Some? <==> AllSet(text, t, View(), mode)
      ensures phases.Some? ==> phases.value == Keep(mode, Running(text, t, View(), mode))
    {
      phases := SelectPhases(Verdicts(text, t, View(), mode), mode);
      VerdictsDecide(text, t, View(), mode);
    }
  }

  /** Whether each phase of a mode runs. */
  function Verdicts(text: Text, t: Tables, s: Settings, mode: seq<Section>): (r: seq<Option<bool>>)
    requires s.Valid()
    ensures |r| == |mode|
  {
    seq(|mode|, i requires 0 <= i < |mode| => Runs(text, t, s, mode[i]))
  }

  /** The phases that run, in order, up to the first for which there is no answer. */
  function Selected(verdicts: seq<Option<bool>>, mode: seq<Section>): Option<seq<Section>>
    requires |verdicts| == |mode|
  {
    if mode == [] then Some([])
    else
      var n := |mode| - 1;
      var before := Selected(verdicts[..n], mode[..n]);
      if before.None? || verdicts[n].None? then None
      else Some(before.value + if verdicts[n].value then [mode[n]] else [])
  }

  lemma SelectedStep(verdicts: seq<Option<bool>>, mode: seq<Section>, i: nat)
    requires |verdicts| == |mode| && i < |mode|
    ensures var before := Selected(verdicts[..i], mode[..i]);
            Selected(verdicts[..i + 1], mode[..i + 1])
            == if before.None? || verdicts[i].None? then None
               else Some(before.value + if verdicts[i].value then [mode[i]] else [])
  {
    assert verdicts[..i + 1][..i] == verdicts[..i] && mode[..i + 1][..i] == mode[..i];
  }

  lemma {:induction false} SelectedStops(verdicts: seq<Option<bool>>, mode: seq<Section>, n: nat)
    requires |verdicts| == |mode| && n <= |mode| && Selected(verdicts[..n], mode[..n]).None?
    ensures Selected(verdicts, mode).None?
    decreases |mode| - n
  {
    if n == |mode| {
      assert verdicts[..n] == verdicts && mode[..n] == mode;
    } else {
      SelectedStep(verdicts, mode, n);
      SelectedStops(verdicts, mode, n + 1);
    }
  }

  /** The loop over the phases. */
  method SelectPhases(verdicts: seq<Option<bool>>, mode: seq<Section>) returns (phases: Option<seq<Section>>)
    requires |verdicts| == |mode|
    ensures phases == Selected(verdicts, mode)
  {
    var enabled: seq<Section> := [];
    var i := 0;
    while i < |mode|
      invariant 0 <= i <= |mode|
      invariant Selected(verdicts[..i], mode[..i]) == Some(enabled)
    {
      SelectedStep(verdicts, mode, i);
      if verdicts[i].None? {
        SelectedStops(verdicts, mode, i + 1);
        return None;
      }
      if verdicts[i].value {
        enabled := enabled + [mode[i]];
      } else {
        assert enabled + [] == enabled;
      }
      i := i + 1;
    }
    assert verdicts[..i] == verdicts && mode[..i] == mode;
    return Some(enabled);
  }

  lemma {:induction false} SelectedIs(verdicts: seq<Option<bool>>, mode: seq<Section>, on: set<Section>)
    requires |verdicts| == |mode|
    requires forall i :: 0 <= i < |mode| ==> (mode[i] in on <==> verdicts[i] == Some(true))
    ensures Selected(verdicts, mode).Some? <==> forall i :: 0 <= i < |mode| ==> verdicts[i].Some?
    ensures Selected(verdicts, mode).Some? ==> Selected(verdicts, mode).value == Keep(mode, on)
  {
    if mode != [] {
      SelectedIs(verdicts[..|mode| - 1], mode[..|mode| - 1], on);
    }
  }

  lemma VerdictsDecide(text: Text, t: Tables, s: Settings, mode: seq<Section>)
    requires s.Valid()
    ensures var r := Selected(Verdicts(text, t, s, mode), mode);
            && (r.Some? <==> AllSet(text, t, s, mode))
            && (r.Some? ==> r.value == Keep(mode, Running(text, t, s, mode)))
  {
    SelectedIs(Verdicts(text, t, s, mode), mode, Running(text, t, s, mode));
  }

  lemma KeepSnoc(order: seq<Section>, x: Section, s: set<Section>)
    ensures Keep(order + [x], s) == Keep(order, s) + if x in s then [x] else []
  {
  }
}
