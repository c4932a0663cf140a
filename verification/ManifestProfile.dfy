/** Deriving a profile: the phases asked for, everything they need, and the run flags
    that make the benchmark run exactly those. */
module ManifestProfile {
  import opened Options
  import opened ManifestModel

  // --- Prerequisite closure --------------------------------------------------------

  predicate Closed(t: Tables, s: set<Section>) {
    forall p :: p in s ==> forall q :: q in Needs(t, p) ==> q in s
  }

  function Elements(s: seq<Section>): set<Section> {
    set x | x in s
  }

  /** The least closed set that holds the request. */
  ghost predicate Least(t: Tables, requested: set<Section>, c: set<Section>) {
    && Closed(t, c) && requested <= c
    && forall s :: Closed(t, s) && requested <= s ==> c <= s
  }

  /** Every phase comes after all that it needs. */
  predicate Ordered(t: Tables, phases: seq<Section>) {
    forall j :: 0 <= j < |phases| ==> Follows(t, phases[j], phases[..j])
  }

  predicate Follows(t: Tables, phase: Section, before: seq<Section>) {
    forall q :: q in Needs(t, phase) ==> q in before
  }

  /** Every name that the worklist can meet. */
  ghost function Universe(t: Tables, requested: seq<Section>): set<Section> {
    Elements(requested) + set p, q | p in t.prerequisites && q in t.prerequisites[p] :: q
  }

  /** Only pending phases may lack something they need. */
  ghost predicate Settled(t: Tables, closure: set<Section>, pending: seq<Section>) {
    && (forall p :: p in pending ==> p in closure)
    && forall p :: p in closure && p !in pending ==> forall q :: q in Needs(t, p) ==> q in closure
  }

  /** Every closed set that holds the request holds `closure`. */
  ghost predicate Forced(t: Tables, requested: seq<Section>, closure: set<Section>) {
    forall s :: Closed(t, s) && Elements(requested) <= s ==> closure <= s
  }

  lemma ForcedGrows(t: Tables, requested: seq<Section>, closure: set<Section>, phase: Section, q: Section)
    requires Forced(t, requested, closure) && phase in closure && q in Needs(t, phase)
    ensures Forced(t, requested, closure + {q})
  {
  }

  /** The prerequisites of one phase that the closure lacks join it and are pending. */
  method Expand(t: Tables, ghost requested: seq<Section>, phase: Section, closure0: set<Section>, pending0: seq<Section>)
    returns (closure: set<Section>, pending: seq<Section>)
    requires phase in closure0 && closure0 <= Universe(t, requested) && Forced(t, requested, closure0)
    requires Settled(t, closure0, pending0 + [phase])
    ensures closure0 <= closure <= Universe(t, requested) && Forced(t, requested, closure)
    ensures Settled(t, closure, pending)
    ensures closure == closure0 ==> pending == pending0
  {
    closure, pending := closure0, pending0;
    var needs := Needs(t, phase);
    var i := 0;
    while i < |needs|
      invariant 0 <= i <= |needs|
      invariant closure0 <= closure <= Universe(t, requested) && Forced(t, requested, closure)
      invariant forall k :: 0 <= k < i ==> needs[k] in closure
      invariant Settled(t, closure, pending + [phase])
      invariant closure == closure0 ==> pending == pending0
    {
      if needs[i] !in closure {
        ForcedGrows(t, requested, closure, phase, needs[i]);
        closure := closure + {needs[i]};
        pending := pending + [needs[i]];
      }
      i := i + 1;
    }
  }

  /** The worklist.  It ends for every finite table, cyclic ones too. */
  method Close(t: Tables, requested: seq<Section>) returns (closure: set<Section>)
    ensures Least(t, Elements(requested), closure)
  {
    closure := Elements(requested);
    var pending := requested;
    while pending != []
      invariant Elements(requested) <= closure <= Universe(t, requested) && Forced(t, requested, closure)
      invariant Settled(t, closure, pending)
      decreases Universe(t, requested) - closure, |pending|
    {
      var phase := pending[|pending| - 1];
      assert pending == pending[..|pending| - 1] + [phase];
      closure, pending := Expand(t, requested, phase, closure, pending[..|pending| - 1]);
    }
  }

  // --- Filtering by the mode order -------------------------------------------------

  lemma OrderedInit(t: Tables, init: seq<Section>, last: Section)
    requires Ordered(t, init + [last])
    ensures Ordered(t, init) && Follows(t, last, init)
  {
    var all := init + [last];
    forall j | 0 <= j < |init|
      ensures Follows(t, init[j], init[..j])
    {
      assert all[j] == init[j] && all[..j] == init[..j];
    }
    assert all[|init|] == last && all[..|init|] == init;
  }

  lemma OrderedSnoc(t: Tables, init: seq<Section>, last: Section)
    requires Ordered(t, init) && Follows(t, last, init)
    ensures Ordered(t, init + [last])
  {
    var all := init + [last];
    forall j | 0 <= j < |all|
      ensures Follows(t, all[j], all[..j])
    {
      if j < |init| {
        assert all[j] == init[j] && all[..j] == init[..j];
      } else {
        assert all[..j] == init;
      }
    }
  }

  lemma KeepOrderedSnoc(t: Tables, init: seq<Section>, last: Section, s: set<Section>)
    requires Ordered(t, Keep(init, s)) && Follows(t, last, init)
    requires last in s ==> forall q :: q in Needs(t, last) ==> q in s
    ensures Ordered(t, Keep(init + [last], s))
  {
    KeepSnoc(init, last, s);
    if last in s {
      OrderedSnoc(t, Keep(init, s), last);
    } else {
      assert Keep(init + [last], s) == Keep(init, s);
    }
  }

  /** Filtering an ordered list by a set closed within it keeps it ordered. */
  lemma {:induction false} KeepOrdered(t: Tables, mode: seq<Section>, s: set<Section>)
    requires Ordered(t, mode)
    requires forall p :: p in mode && p in s ==> forall q :: q in Needs(t, p) ==> q in s
    ensures Ordered(t, Keep(mode, s))
  {
    if mode != [] {
      var init, last := mode[..|mode| - 1], mode[|mode| - 1];
      assert mode == init + [last];
      OrderedInit(t, init, last);
      KeepOrdered(t, init, s);
      KeepOrderedSnoc(t, init, last, s);
    }
  }

  lemma OrderedIsClosed(t: Tables, mode: seq<Section>)
    requires Ordered(t, mode)
    ensures Closed(t, Elements(mode))
  {
  }

  /** In an ordered mode the filter loses nothing of the closure, and what it keeps has
      every prerequisite first. */
  lemma FilteredClosure(t: Tables, mode: seq<Section>, requested: set<Section>, c: set<Section>)
    requires Ordered(t, mode) && requested <= Elements(mode) && Least(t, requested, c)
    ensures Elements(Keep(mode, c)) == c && Ordered(t, Keep(mode, c))
  {
    OrderedIsClosed(t, mode);
    assert c <= Elements(mode);
    KeepOrdered(t, mode, c);
  }

  // --- Rewriting the run flags -----------------------------------------------------

  /** What the tables must satisfy for a mode: prerequisites first, every phase known,
      and no group named like a phase. */
  predicate Sound(t: Tables, mode: seq<Section>) {
    && Ordered(t, mode)
    && (forall p :: p in mode ==> p in t.order)
    && forall g :: g in Names(t.grouped) ==> g !in mode
  }

  /** Sections whose flag is to be set: the phases and their groups. */
  function EnabledSections(t: Tables, phases: seq<Section>): set<Section> {
    Elements(phases) + set p | p in phases && Group(t, p).Some? :: Group(t, p).value
  }

  /** The sections exist and their flags say whether they are enabled. */
  ghost predicate Flagged(text: Text, s: Settings, sections: seq<Section>, enabled: set<Section>) {
    && s.Valid()
    && forall x :: x in sections ==> x in s.sections && Flag(text, s, x) == Some(x in enabled)
  }

  /** Sections stay, and in a section that was there every lookup that is not `touched`
      finds what it found. */
  ghost predicate Spares(text: Text, s: Settings, s': Settings, touched: (Section, string) -> bool) {
    && s.Valid() && s'.Valid()
    && (forall x :: x in s.sections ==> x in s'.sections)
    && forall x, name :: x in s.sections && !touched(x, name) ==> Lookup(text, s', x, name) == Lookup(text, s, x, name)
  }

  lemma SparedLookup(
      text: Text, s: Settings, s': Settings, touched: (Section, string) -> bool, x: Section, name: string)
    requires Spares(text, s, s', touched) && x in s.sections && !touched(x, name)
    ensures x in s'.sections && Lookup(text, s', x, name) == Lookup(text, s, x, name)
  {
  }

  lemma SparesTwice(text: Text, a: Settings, b: Settings, c: Settings, touched: (Section, string) -> bool)
    requires Spares(text, a, b, touched) && Spares(text, b, c, touched)
    ensures Spares(text, a, c, touched)
  {
  }

  lemma SparesMore(
      text: Text, a: Settings, b: Settings, touched: (Section, string) -> bool, more: (Section, string) -> bool)
    requires Spares(text, a, b, touched) && forall x, name :: touched(x, name) ==> more(x, name)
    ensures Spares(text, a, b, more)
  {
  }

  /** A setting touches one name of one section. */
  lemma PutSpares(
      text: Text, s: Settings, section: Section, name: string, v: string, touched: (Section, string) -> bool)
    requires s.Valid() && forall n :: text.lower(n) == text.lower(name) ==> touched(section, n)
    ensures Spares(text, s, Put(text, s, section, name, v), touched)
  {
    var s' := Put(text, s, section, name, v);
    PutValid(text, s, section, name, v);
    forall x, n | x in s.sections && !touched(x, n)
      ensures Lookup(text, s', x, n) == Lookup(text, s, x, n)
    {
      LookupAfterPut(text, s, section, name, v, x, n);
    }
  }

  function PutAll(
      text: Text, s: Settings, sections: seq<Section>, enabled: set<Section>, name: string, on: string, off: string)
    : Settings
  {
    if sections == [] then s
    else
      var last := sections[|sections| - 1];
      Put(text, PutAll(text, s, sections[..|sections| - 1], enabled, name, on, off), last, name,
          if last in enabled then on else off)
  }

  lemma {:induction false} PutAllValid(
      text: Text, s: Settings, sections: seq<Section>, enabled: set<Section>, name: string, on: string, off: string)
    requires s.Valid()
    ensures PutAll(text, s, sections, enabled, name, on, off).Valid()
  {
    if sections != [] {
      var init, last := sections[..|sections| - 1], sections[|sections| - 1];
      PutAllValid(text, s, init, enabled, name, on, off);
      PutValid(text, PutAll(text, s, init, enabled, name, on, off), last, name, if last in enabled then on else off);
    }
  }

  /** Every section listed then exists and says whether it is enabled. */
  lemma {:induction false} PutAllSays(
      text: Text, s: Settings, sections: seq<Section>, enabled: set<Section>, name: string, on: string, off: string,
      x: Section)
    requires s.Valid() && x in sections
    requires PutAll(text, s, sections, enabled, name, on, off).Valid()
    ensures x in PutAll(text, s, sections, enabled, name, on, off).sections
    ensures Lookup(text, PutAll(text, s, sections, enabled, name, on, off), x, name)
            == Some(text.strip(if x in enabled then on else off))
  {
    var init, last := sections[..|sections| - 1], sections[|sections| - 1];
    PutAllValid(text, s, init, enabled, name, on, off);
    var before := PutAll(text, s, init, enabled, name, on, off);
    LookupAfterPut(text, before, last, name, if last in enabled then on else off, x, name);
    if x != last {
      PutAllSays(text, s, init, enabled, name, on, off, x);
    }
  }

  method SetAll(
      text: Text, config: Config, sections: seq<Section>, enabled: set<Section>, name: string, on: string, off: string)
    modifies config
    ensures config.View() == PutAll(text, old(config.View()), sections, enabled, name, on, off)
  {
    var i := 0;
    while i < |sections|
      invariant 0 <= i <= |sections|
      invariant config.View() == PutAll(text, old(config.View()), sections[..i], enabled, name, on, off)
    {
      assert sections[..i + 1][..i] == sections[..i];
      config.SetOption(text, sections[i], name, if sections[i] in enabled then on else off);
      i := i + 1;
    }
    assert sections[..i] == sections;
  }

  lemma PutAllFlags(text: Text, s: Settings, sections: seq<Section>, enabled: set<Section>)
    requires Lawful(text) && s.Valid()
    ensures Flagged(text, PutAll(text, s, sections, enabled, "run", "TRUE", "FALSE"), sections, enabled)
  {
    var s' := PutAll(text, s, sections, enabled, "run", "TRUE", "FALSE");
    PutAllValid(text, s, sections, enabled, "run", "TRUE", "FALSE");
    forall x | x in sections
      ensures x in s'.sections && Flag(text, s', x) == Some(x in enabled)
    {
      PutAllSays(text, s, sections, enabled, "run", "TRUE", "FALSE", x);
    }
  }

  /** The option `name`, up to case, of the sections. */
  function NamedIn(text: Text, sections: set<Section>, name: string): (Section, string) -> bool {
    (x, n) => x in sections && text.lower(n) == text.lower(name)
  }

  lemma {:induction false} PutAllSpares(
      text: Text, s: Settings, sections: seq<Section>, enabled: set<Section>, name: string, on: string, off: string,
      all: set<Section>)
    requires s.Valid() && Elements(sections) <= all
    ensures Spares(text, s, PutAll(text, s, sections, enabled, name, on, off), NamedIn(text, all, name))
  {
    if sections != [] {
      var init, last := sections[..|sections| - 1], sections[|sections| - 1];
      var before := PutAll(text, s, init, enabled, name, on, off);
      var v := if last in enabled then on else off;
      PutAllSpares(text, s, init, enabled, name, on, off, all);
      PutSpares(text, before, last, name, v, NamedIn(text, all, name));
      SparesTwice(text, s, before, Put(text, before, last, name, v), NamedIn(text, all, name));
    }
  }

  lemma {:induction false} PutAllAdds(
      text: Text, s: Settings, sections: seq<Section>, enabled: set<Section>, name: string, on: string, off: string,
      x: Section)
    ensures x in PutAll(text, s, sections, enabled, name, on, off).sections <==> x in s.sections || x in sections
  {
    if sections != [] {
      var init, last := sections[..|sections| - 1], sections[|sections| - 1];
      PutAllAdds(text, s, init, enabled, name, on, off, x);
      PutAdds(text, PutAll(text, s, init, enabled, name, on, off), last, name, if last in enabled then on else off);
      assert sections == init + [last];
    }
  }

  lemma PutAdds(text: Text, s: Settings, x: Section, name: string, v: string)
    ensures Put(text, s, x, name, v).sections.Keys == s.sections.Keys + {x}
  {
  }

  /** The run flags say what is enabled; nothing else changes. */
  method SetRunFlags(text: Text, config: Config, sections: seq<Section>, enabled: set<Section>)
    requires Lawful(text) && config.View().Valid()
    modifies config
    ensures Flagged(text, config.View(), sections, enabled)
    ensures Spares(text, old(config.View()), config.View(), NamedIn(text, Elements(sections), "run"))
    ensures forall x :: x in config.sections <==> x in old(config.sections) || x in sections
  {
    SetAll(text, config, sections, enabled, "run", "TRUE", "FALSE");
    PutAllFlags(text, old(config.View()), sections, enabled);
    PutAllSpares(text, old(config.View()), sections, enabled, "run", "TRUE", "FALSE", Elements(sections));
    forall x
      ensures x in config.sections <==> x in old(config.sections) || x in sections
    {
      PutAllAdds(text, old(config.View()), sections, enabled, "run", "TRUE", "FALSE", x);
    }
  }

  /** The sections say `v`. */
  ghost predicate Say(text: Text, s: Settings, sections: set<Section>, name: string, v: string) {
    s.Valid() && forall x :: x in sections ==> Lookup(text, s, x, name) == Some(text.strip(v))
  }

  lemma PutSaysMore(text: Text, s: Settings, sections: set<Section>, name: string, v: string, x: Section)
    requires Say(text, s, sections, name, v)
    ensures Say(text, Put(text, s, x, name, v), sections + {x}, name, v)
  {
    PutValid(text, s, x, name, v);
    forall y | y in sections + {x}
      ensures Lookup(text, Put(text, s, x, name, v), y, name) == Some(text.strip(v))
    {
      LookupAfterPut(text, s, x, name, v, y, name);
    }
  }

  /** The settings `s'` come from `s` by setting the object count in `done`. */
  ghost predicate Counted(text: Text, s: Settings, s': Settings, groups: set<Section>, done: set<Section>, v: string) {
    && Say(text, s', done, "n", v) && Spares(text, s, s', NamedIn(text, groups, "n"))
    && s'.sections.Keys == s.sections.Keys + done
  }

  lemma OneGroupMore(
      text: Text, s: Settings, before: Settings, groups: set<Section>, done: set<Section>, g: Section, v: string)
    requires Counted(text, s, before, groups, done, v) && g in groups
    ensures Counted(text, s, Put(text, before, g, "n", v), groups, done + {g}, v)
  {
    PutSpares(text, before, g, "n", v, NamedIn(text, groups, "n"));
    PutSaysMore(text, before, done, "n", v, g);
    SparesTwice(text, s, before, Put(text, before, g, "n", v), NamedIn(text, groups, "n"));
    PutAdds(text, before, g, "n", v);
  }

  lemma NoGroupYet(text: Text, s: Settings, groups: set<Section>, v: string)
    requires s.Valid()
    ensures Counted(text, s, s, groups, {}, v)
  {
  }

  lemma AllGroups(groups: set<Section>, left: set<Section>)
    requires left == {}
    ensures groups - left == groups
  {
  }

  lemma OneLess(groups: set<Section>, left: set<Section>, g: Section)
    requires left <= groups && g in left
    ensures groups - (left - {g}) == groups - left + {g}
  {
  }

  /** The object count is set in every group, and nothing else changes. */
  method SetItems(text: Text, config: Config, groups: set<Section>, items: int)
    requires config.View().Valid()
    modifies config
    ensures Counted(text, old(config.View()), config.View(), groups, groups, text.decimal(items))
  {
    var left, v := groups, text.decimal(items);
    NoGroupYet(text, config.View(), groups, v);
    assert groups - left == {};
    while left != {}
      invariant left <= groups
      invariant Counted(text, old(config.View()), config.View(), groups, groups - left, v)
    {
      var g :| g in left;
      OneGroupMore(text, old(config.View()), config.View(), groups, groups - left, g, v);
      OneLess(groups, left, g);
      config.SetOption(text, g, "n", v);
      left := left - {g};
    }
    AllGroups(groups, left);
  }

  /** Reading the flags back gives the list that was written. */
  lemma ReadBack(text: Text, t: Tables, s: Settings, mode: seq<Section>, c: set<Section>)
    requires Sound(t, mode) && c <= Elements(mode)
    requires Flagged(text, s, RunSections(t), EnabledSections(t, Keep(mode, c)))
    ensures AllSet(text, t, s, mode) && Keep(mode, Running(text, t, s, mode)) == Keep(mode, c)
  {
    var phases := Keep(mode, c);
    forall p | p in mode
      ensures Runs(text, t, s, p) == Some(p in c)
    {
      assert p in RunSections(t);
      if Group(t, p).Some? {
        assert Group(t, p).value in RunSections(t);
      }
    }
    assert Running(text, t, s, mode) == c;
  }
}
