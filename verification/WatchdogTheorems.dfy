/** However the output is cut into observations, the watchdog decides what a batch
    reading of the whole output and of the observation times decides. */
module WatchdogTheorems {
  import opened Options
  import opened WatchdogModel

  // --- Cutting text into lines -----------------------------------------------------

  /** The lines, each with its newline. */
  function Ended(lines: seq<string>): string {
    if lines == [] then "" else Ended(lines[..|lines| - 1]) + lines[|lines| - 1] + "\n"
  }

  lemma LastPiece(s: string)
    requires s != ""
    ensures var init, c := s[..|s| - 1], s[|s| - 1];
            && Complete(s) == (if c == '\n' then Split(init) else Complete(init))
            && Rest(s) == (if c == '\n' then "" else Rest(init) + [c])
  {
  }

  lemma EndedSplit(s: string)
    ensures Ended(Split(s)) == Ended(Complete(s)) + Rest(s) + "\n"
  {
  }

  lemma Append(a: string, b: string, c: char)
    ensures a + (b + [c]) == a + b + [c]
  {
  }

  /** What was written so far: complete lines with their newlines, then the rest. */
  function Written(s: string): string {
    Ended(Complete(s)) + Rest(s)
  }

  lemma WrittenSnoc(init: string, c: char)
    ensures Written(init + [c]) == Written(init) + [c]
  {
    var s := init + [c];
    assert s[..|s| - 1] == init;
    LastPiece(s);
    EndedSplit(init);
    Append(Ended(Complete(init)), Rest(init), c);
  }

  /** Splitting loses nothing: the text is its complete lines with their newlines, and
      then the rest. */
  lemma {:induction false} SplitLosesNothing(s: string)
    ensures Ended(Complete(s)) + Rest(s) == s
  {
    if s != "" {
      SplitLosesNothing(s[..|s| - 1]);
      WrittenSnoc(s[..|s| - 1], s[|s| - 1]);
      assert s == s[..|s| - 1] + [s[|s| - 1]];
    }
  }

  /** And it cuts at every newline. */
  lemma {:induction false} RestIsPlain(s: string)
    ensures '\n' !in Rest(s)
  {
    if s != "" {
      RestIsPlain(s[..|s| - 1]);
      LastPiece(s);
    }
  }

  lemma {:induction false} LinesArePlain(s: string, k: nat)
    requires k < |Complete(s)|
    ensures '\n' !in Complete(s)[k]
  {
    var init := s[..|s| - 1];
    LastPiece(s);
    if k < |Complete(init)| {
      LinesArePlain(init, k);
    } else {
      RestIsPlain(init);
    }
  }

  lemma ExtendPlain(s: string, c: char)
    requires c != '\n'
    ensures Extend([s], c) == [s + [c]]
  {
  }

  lemma {:induction false} SplitPlain(s: string)
    requires '\n' !in s
    ensures Split(s) == [s]
  {
    if s != "" {
      var init, c := s[..|s| - 1], s[|s| - 1];
      assert c in s && forall x :: x in init ==> x in s;
      SplitPlain(init);
      ExtendPlain(init, c);
      assert s == init + [c];
    }
  }

  lemma ExtendBehind(front: seq<string>, pieces: seq<string>, c: char)
    requires |pieces| > 0
    ensures Extend(front + pieces, c) == front + Extend(pieces, c)
  {
  }

  lemma TailOfJoin(a: string, b: string)
    requires b != ""
    ensures (a + b)[..|a + b| - 1] == a + b[..|b| - 1] && (a + b)[|a + b| - 1] == b[|b| - 1]
  {
  }

  lemma SplitTail(a: string, b: string)
    requires b != ""
    ensures Split(a + b) == Extend(Split(a + b[..|b| - 1]), b[|b| - 1])
  {
    TailOfJoin(a, b);
  }

  /** Reading on from the unfinished line gives the lines of the whole. */
  lemma {:induction false} SplitAppend(a: string, front: seq<string>, last: string, b: string)
    requires Split(a) == front + [last] && '\n' !in last
    ensures Split(a + b) == front + Split(last + b)
    decreases |b|
  {
    if b == "" {
      assert a + b == a && last + b == last;
      SplitPlain(last);
    } else {
      SplitAppend(a, front, last, b[..|b| - 1]);
      SplitTail(a, b);
      SplitTail(last, b);
      ExtendBehind(front, Split(last + b[..|b| - 1]), b[|b| - 1]);
    }
  }

  lemma CompleteAppend(a: string, b: string)
    ensures Complete(a + b) == Complete(a) + Complete(Rest(a) + b)
    ensures Rest(a + b) == Rest(Rest(a) + b)
  {
    RestIsPlain(a);
    SplitAppend(a, Complete(a), Rest(a), b);
  }

  // --- The batch reading -----------------------------------------------------------

  predicate Reports(rules: Rules, line: string, phase: string) {
    rules.report(line).Some? && rules.report(line).value.phase == phase && phase in rules.required
  }

  /** Required phases that some line reports. */
  function Done(rules: Rules, lines: seq<string>): (r: set<string>)
    ensures forall p :: p in r <==> exists k :: 0 <= k < |lines| && Reports(rules, lines[k], p)
  {
    set k, p | 0 <= k < |lines| && p in rules.required && Reports(rules, lines[k], p) :: p
  }

  /** A line that raises nothing: no duration that is not a number, and none over the
      limit for a required phase. */
  predicate Harmless(rules: Rules, line: string) {
    var r := rules.report(line);
    r.Some? ==> r.value.elapsed.Some? && (r.value.phase in rules.required ==> r.value.elapsed.value <= 600.0)
  }

  predicate AllHarmless(rules: Rules, lines: seq<string>) {
    forall k :: 0 <= k < |lines| ==> Harmless(rules, lines[k])
  }

  predicate HasBanner(rules: Rules, lines: seq<string>) {
    exists k :: 0 <= k < |lines| && rules.banner(lines[k])
  }

  /** The phase whose first report comes last. */
  function LastNew(rules: Rules, lines: seq<string>): string {
    if lines == [] then "before-first-result"
    else
      var init, r := lines[..|lines| - 1], rules.report(lines[|lines| - 1]);
      if r.Some? && r.value.phase in rules.required && r.value.phase !in Done(rules, init) then r.value.phase
      else LastNew(rules, init)
  }

  /** The output shown last. */
  function Shown(obs: seq<Observation>): string {
    if obs == [] then "" else obs[|obs| - 1].output
  }

  /** The console only grows. */
  predicate Growing(obs: seq<Observation>) {
    forall i :: 0 <= i < |obs| ==> Shown(obs[..i]) <= obs[i].output
  }

  /** When the current window began: at the last observation that showed a phase for
      the first time, else at the first that showed the banner. */
  function Window(rules: Rules, obs: seq<Observation>): Option<real> {
    if obs == [] then None
    else
      var init := obs[..|obs| - 1];
      var now, lines := obs[|obs| - 1].now, Complete(Shown(obs));
      if Done(rules, lines) != Done(rules, Complete(Shown(init))) then Some(now)
      else if Window(rules, init).None? && HasBanner(rules, lines) then Some(now)
      else Window(rules, init)
  }

  /** At the last observation a phase was outstanding and its window was over. */
  predicate Overdue(rules: Rules, obs: seq<Observation>)
    requires obs != []
  {
    && Window(rules, obs).Some?
    && Done(rules, Complete(Shown(obs))) != rules.required
    && obs[|obs| - 1].now - Window(rules, obs).value > 600.0
  }

  /** The lines that the observations took in, in order. */
  function Taken(rules: Rules, obs: seq<Observation>): seq<string> {
    if obs == [] then []
    else
      var init := obs[..|obs| - 1];
      Taken(rules, init) + Complete(Unread(Run(rules, init).0, obs[|obs| - 1].output))
  }

  // --- Absorbing lines -------------------------------------------------------------

  lemma DoneSnoc(rules: Rules, lines: seq<string>, line: string)
    ensures Done(rules, lines + [line])
            == Done(rules, lines)
               + if rules.report(line).Some? && rules.report(line).value.phase in rules.required
                 then {rules.report(line).value.phase} else {}
  {
    var all := lines + [line];
    forall p | p in Done(rules, lines)
      ensures p in Done(rules, all)
    {
      var k :| 0 <= k < |lines| && Reports(rules, lines[k], p);
      assert Reports(rules, all[k], p);
    }
    if rules.report(line).Some? && rules.report(line).value.phase in rules.required {
      assert Reports(rules, all[|lines|], rules.report(line).value.phase);
    }
  }

  /** `seen` was read before; the gate says what a batch reading of it says. */
  predicate Faithful(rules: Rules, g: Gate, seen: seq<string>) {
    && g.completed == Done(rules, seen)
    && g.last == LastNew(rules, seen)
    && (g.window.None? ==> Done(rules, seen) == {} && !HasBanner(rules, seen))
  }

  function Moved(rules: Rules, window: Option<real>, seen: seq<string>, more: seq<string>, now: real): Option<real> {
    if Done(rules, seen + more) != Done(rules, seen) then Some(now)
    else if window.None? && HasBanner(rules, seen + more) then Some(now)
    else window
  }

  lemma OneLineFaithful(rules: Rules, g: Gate, seen: seq<string>, line: string, now: real)
    requires Faithful(rules, g, seen)
    ensures OneLine(rules, g, line, now).1.Quiet? <==> Harmless(rules, line)
    ensures Harmless(rules, line) ==> Faithful(rules, OneLine(rules, g, line, now).0, seen + [line])
    ensures Harmless(rules, line) ==>
              OneLine(rules, g, line, now).0.window == Moved(rules, g.window, seen, [line], now)
  {
    DoneSnoc(rules, seen, line);
    var all := seen + [line];
    assert all[..|seen|] == seen && all[|seen|] == line;
    if HasBanner(rules, all) && !rules.banner(line) {
      var k :| 0 <= k < |all| && rules.banner(all[k]);
      assert rules.banner(seen[k]);
    }
  }

  lemma {:induction false} AbsorbFaithful(rules: Rules, g: Gate, seen: seq<string>, lines: seq<string>, now: real)
    requires Faithful(rules, g, seen)
    ensures Absorb(rules, g, lines, now).1.Quiet? <==> AllHarmless(rules, lines)
    ensures AllHarmless(rules, lines) ==> Faithful(rules, Absorb(rules, g, lines, now).0, seen + lines)
    ensures AllHarmless(rules, lines) ==>
              Absorb(rules, g, lines, now).0.window == Moved(rules, g.window, seen, lines, now)
    decreases |lines|
  {
    if lines == [] {
      assert seen + lines == seen;
    } else {
      var init, line := lines[..|lines| - 1], lines[|lines| - 1];
      assert lines == init + [line] && seen + lines == seen + init + [line];
      AbsorbFaithful(rules, g, seen, init, now);
      assert AllHarmless(rules, lines) <==> AllHarmless(rules, init) && Harmless(rules, line);
      if AllHarmless(rules, init) {
        OneLineFaithful(rules, Absorb(rules, g, init, now).0, seen + init, line, now);
        MovedTwice(rules, g.window, seen, init, line, now);
      }
    }
  }

  lemma MovedTwice(rules: Rules, window: Option<real>, seen: seq<string>, init: seq<string>, line: string, now: real)
    ensures Moved(rules, Moved(rules, window, seen, init, now), seen + init, [line], now)
            == Moved(rules, window, seen, init + [line], now)
  {
    assert seen + (init + [line]) == seen + init + [line];
    DoneGrows(rules, seen, init);
    DoneSnoc(rules, seen + init, line);
    BannerGrows(rules, seen + init, [line]);
  }

  lemma DoneGrows(rules: Rules, a: seq<string>, b: seq<string>)
    ensures Done(rules, a) <= Done(rules, a + b)
  {
    forall p | p in Done(rules, a)
      ensures p in Done(rules, a + b)
    {
      var k :| 0 <= k < |a| && Reports(rules, a[k], p);
      assert Reports(rules, (a + b)[k], p);
    }
  }

  lemma BannerGrows(rules: Rules, a: seq<string>, b: seq<string>)
    ensures HasBanner(rules, a) ==> HasBanner(rules, a + b)
  {
    if HasBanner(rules, a) {
      var k :| 0 <= k < |a| && rules.banner(a[k]);
      assert rules.banner((a + b)[k]);
    }
  }

  // --- Runs ------------------------------------------------------------------------

  /** What a run that has not raised has read: everything shown, each line once. */
  predicate Caught(rules: Rules, obs: seq<Observation>) {
    var w, shown := Run(rules, obs).0, Shown(obs);
    && w.offset == |shown| && w.partial == Rest(shown)
    && Taken(rules, obs) == Complete(shown)
    && Faithful(rules, w.gate, Complete(shown))
    && w.gate.window == Window(rules, obs)
  }

  lemma GrowingInit(obs: seq<Observation>)
    requires Growing(obs) && obs != []
    ensures Growing(obs[..|obs| - 1]) && Shown(obs[..|obs| - 1]) <= Shown(obs)
  {
    var init := obs[..|obs| - 1];
    forall i | 0 <= i < |init|
      ensures Shown(init[..i]) <= init[i].output
    {
      assert init[..i] == obs[..i];
    }
  }

  lemma UnreadIsNew(w: Watch, before: string, shown: string)
    requires before <= shown && w.offset == |before| && w.partial == Rest(before)
    ensures Complete(shown) == Complete(before) + Complete(Unread(w, shown))
    ensures Rest(shown) == Rest(Unread(w, shown))
  {
    assert shown == before + shown[|before|..];
    CompleteAppend(before, shown[|before|..]);
  }

  predicate NeverOverdue(rules: Rules, obs: seq<Observation>) {
    forall i :: 0 < i <= |obs| ==> !Overdue(rules, obs[..i])
  }

  lemma NeverOverdueInit(rules: Rules, obs: seq<Observation>)
    requires obs != []
    ensures NeverOverdue(rules, obs) <==> NeverOverdue(rules, obs[..|obs| - 1]) && !Overdue(rules, obs)
  {
    var init := obs[..|obs| - 1];
    assert obs[..|obs|] == obs;
    assert forall i :: 0 < i <= |init| ==> init[..i] == obs[..i];
    if NeverOverdue(rules, init) && !Overdue(rules, obs) {
      forall i | 0 < i <= |obs|
        ensures !Overdue(rules, obs[..i])
      {
        if i < |obs| {
          assert init[..i] == obs[..i];
        }
      }
    }
  }

  lemma HarmlessSplits(rules: Rules, a: seq<string>, b: seq<string>)
    ensures AllHarmless(rules, a + b) <==> AllHarmless(rules, a) && AllHarmless(rules, b)
  {
    assert forall k :: 0 <= k < |a| ==> (a + b)[k] == a[k];
    assert forall k :: 0 <= k < |b| ==> (a + b)[|a| + k] == b[k];
  }

  /** The watchdog raises exactly when the batch reading finds a fault; until then it has
      read each complete line once, and knows what the batch reading knows. */
  lemma {:induction false} WatchdogIsExact(rules: Rules, obs: seq<Observation>)
    requires Growing(obs)
    ensures Run(rules, obs).1.Quiet? <==> AllHarmless(rules, Complete(Shown(obs))) && NeverOverdue(rules, obs)
    ensures Run(rules, obs).1.Quiet? ==> Caught(rules, obs)
    decreases |obs|
  {
    if obs != [] {
      var init := obs[..|obs| - 1];
      GrowingInit(obs);
      WatchdogIsExact(rules, init);
      NeverOverdueInit(rules, obs);
      if Run(rules, init).1.Quiet? {
        OneMore(rules, obs);
      } else {
        QuietOnlyIfHarmless(rules, obs);
      }
    }
  }

  lemma QuietOnlyIfHarmless(rules: Rules, obs: seq<Observation>)
    requires Growing(obs) && obs != []
    ensures AllHarmless(rules, Complete(Shown(obs))) ==> AllHarmless(rules, Complete(Shown(obs[..|obs| - 1])))
  {
    GrowingInit(obs);
    var before, shown := Shown(obs[..|obs| - 1]), Shown(obs);
    assert shown == before + shown[|before|..];
    CompleteAppend(before, shown[|before|..]);
    HarmlessSplits(rules, Complete(before), Complete(Rest(before) + shown[|before|..]));
  }

  lemma OneMore(rules: Rules, obs: seq<Observation>)
    requires Growing(obs) && obs != []
    requires Run(rules, obs[..|obs| - 1]).1.Quiet? && Caught(rules, obs[..|obs| - 1])
    requires AllHarmless(rules, Complete(Shown(obs[..|obs| - 1])))
    ensures Run(rules, obs).1.Quiet? <==> AllHarmless(rules, Complete(Shown(obs))) && !Overdue(rules, obs)
    ensures Run(rules, obs).1.Quiet? ==> Caught(rules, obs)
  {
    var init, o := obs[..|obs| - 1], obs[|obs| - 1];
    var w := Run(rules, init).0;
    var seen, more := Complete(Shown(init)), Complete(Unread(w, o.output));
    GrowingInit(obs);
    UnreadIsNew(w, Shown(init), Shown(obs));
    HarmlessSplits(rules, seen, more);
    AbsorbFaithful(rules, w.gate, seen, more, o.now);
    assert Moved(rules, w.gate.window, seen, more, o.now) == Window(rules, obs);
  }

  // --- What the callers rely on ----------------------------------------------------

  /** The completed phases are those that one look at the whole output would find. */
  lemma SameAsOneLook(rules: Rules, obs: seq<Observation>, now: real)
    requires Growing(obs) && Run(rules, obs).1.Quiet?
    ensures Run(rules, obs).0.gate.completed
            == Observe(rules, Start, Observation(Shown(obs), now)).0.gate.completed
            == Done(rules, Complete(Shown(obs)))
  {
    WatchdogIsExact(rules, obs);
    assert Unread(Start, Shown(obs)) == Shown(obs);
    AbsorbFaithful(rules, Start.gate, [], Complete(Shown(obs)), now);
    assert [] + Complete(Shown(obs)) == Complete(Shown(obs));
  }

  /** Two ways of cutting the same output, shown at the same last time and with windows
      that began at the same time, end in the same state. */
  lemma CutsAgree(rules: Rules, a: seq<Observation>, b: seq<Observation>)
    requires Growing(a) && Growing(b) && Shown(a) == Shown(b) && Window(rules, a) == Window(rules, b)
    requires Run(rules, a).1.Quiet? && Run(rules, b).1.Quiet?
    ensures Run(rules, a).0 == Run(rules, b).0
  {
    WatchdogIsExact(rules, a);
    WatchdogIsExact(rules, b);
  }

  // --- Which verdict ---------------------------------------------------------------

  /** What a line by itself is to be blamed for. */
  function Blame(rules: Rules, line: string): Verdict {
    var r := rules.report(line);
    if r.None? then Quiet
    else if r.value.elapsed.None? then BadNumber
    else if r.value.phase in rules.required && r.value.elapsed.value > 600.0 then
      PhaseTooLong(r.value.phase, r.value.elapsed.value)
    else Quiet
  }

  /** The blame of the first line that has one. */
  function FirstBlame(rules: Rules, lines: seq<string>): Verdict {
    if lines == [] then Quiet
    else
      var before := FirstBlame(rules, lines[..|lines| - 1]);
      if before.Quiet? then Blame(rules, lines[|lines| - 1]) else before
  }

  lemma {:induction false} FirstBlameIs(rules: Rules, lines: seq<string>, k: nat)
    requires k < |lines| && !Harmless(rules, lines[k]) && AllHarmless(rules, lines[..k])
    ensures FirstBlame(rules, lines) == Blame(rules, lines[k])
    decreases |lines|
  {
    if k == |lines| - 1 {
      NoBlame(rules, lines[..k]);
    } else {
      assert lines[..|lines| - 1][..k] == lines[..k];
      FirstBlameIs(rules, lines[..|lines| - 1], k);
    }
  }

  lemma {:induction false} NoBlame(rules: Rules, lines: seq<string>)
    requires AllHarmless(rules, lines)
    ensures FirstBlame(rules, lines) == Quiet
  {
    if lines != [] {
      NoBlame(rules, lines[..|lines| - 1]);
    }
  }

  lemma {:induction false} BlameLater(rules: Rules, a: seq<string>, b: seq<string>)
    requires AllHarmless(rules, a)
    ensures FirstBlame(rules, a + b) == FirstBlame(rules, b)
    decreases |b|
  {
    if b == [] {
      assert a + b == a;
      NoBlame(rules, a);
    } else {
      assert (a + b)[..|a + b| - 1] == a + b[..|b| - 1];
      BlameLater(rules, a, b[..|b| - 1]);
    }
  }

  lemma {:induction false} AbsorbBlames(rules: Rules, g: Gate, lines: seq<string>, now: real)
    ensures Absorb(rules, g, lines, now).1 == FirstBlame(rules, lines)
  {
    if lines != [] {
      AbsorbBlames(rules, g, lines[..|lines| - 1], now);
    }
  }

  /** The verdict of a batch reading: at the first observation that shows a line to blame,
      the blame of the first such line; at the first that finds the window over, the phase
      after which it began. */
  function BatchVerdict(rules: Rules, obs: seq<Observation>): Verdict {
    if obs == [] then Quiet
    else
      var before, lines := BatchVerdict(rules, obs[..|obs| - 1]), Complete(Shown(obs));
      if !before.Quiet? then before
      else if !FirstBlame(rules, lines).Quiet? then FirstBlame(rules, lines)
      else if Overdue(rules, obs) then WindowTooLong(LastNew(rules, lines))
      else Quiet
  }

  /** The watchdog gives the verdict of the batch reading. */
  lemma {:induction false} VerdictIsExact(rules: Rules, obs: seq<Observation>)
    requires Growing(obs)
    ensures Run(rules, obs).1 == BatchVerdict(rules, obs)
    decreases |obs|
  {
    if obs != [] {
      var init := obs[..|obs| - 1];
      GrowingInit(obs);
      VerdictIsExact(rules, init);
      WatchdogIsExact(rules, init);
      if Run(rules, init).1.Quiet? {
        OneMoreVerdict(rules, obs);
      }
    }
  }

  lemma OneMoreVerdict(rules: Rules, obs: seq<Observation>)
    requires Growing(obs) && obs != []
    requires Run(rules, obs[..|obs| - 1]).1.Quiet? && Caught(rules, obs[..|obs| - 1])
    requires AllHarmless(rules, Complete(Shown(obs[..|obs| - 1])))
    ensures var lines := Complete(Shown(obs));
            Run(rules, obs).1 == if !FirstBlame(rules, lines).Quiet? then FirstBlame(rules, lines)
                                 else if Overdue(rules, obs) then WindowTooLong(LastNew(rules, lines)) else Quiet
  {
    var init, o := obs[..|obs| - 1], obs[|obs| - 1];
    var w := Run(rules, init).0;
    var seen, more := Complete(Shown(init)), Complete(Unread(w, o.output));
    GrowingInit(obs);
    UnreadIsNew(w, Shown(init), Shown(obs));
    BlameLater(rules, seen, more);
    AbsorbBlames(rules, w.gate, more, o.now);
    AbsorbFaithful(rules, w.gate, seen, more, o.now);
    assert Moved(rules, w.gate.window, seen, more, o.now) == Window(rules, obs);
  }

  /** A required phase reported with more than 600 seconds is never missed, wherever its
      line was cut: when it is the first line to blame and no window was over before it was
      shown, the verdict names the phase and its duration. */
  lemma LongPhaseIsCaught(rules: Rules, obs: seq<Observation>, k: nat, phase: string, elapsed: real)
    requires Growing(obs) && obs != [] && k < |Complete(Shown(obs))|
    requires rules.report(Complete(Shown(obs))[k]) == Some(Report(phase, Some(elapsed)))
    requires phase in rules.required && elapsed > 600.0
    ensures !Run(rules, obs).1.Quiet?
    ensures AllHarmless(rules, Complete(Shown(obs))[..k]) && Run(rules, obs[..|obs| - 1]).1.Quiet? ==>
              Run(rules, obs).1 == PhaseTooLong(phase, elapsed)
  {
    var lines := Complete(Shown(obs));
    WatchdogIsExact(rules, obs);
    assert !Harmless(rules, lines[k]);
    VerdictIsExact(rules, obs);
    if AllHarmless(rules, lines[..k]) && Run(rules, obs[..|obs| - 1]).1.Quiet? {
      GrowingInit(obs);
      VerdictIsExact(rules, obs[..|obs| - 1]);
      FirstBlameIs(rules, lines, k);
    }
  }
}
