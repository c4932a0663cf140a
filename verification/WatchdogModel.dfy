/** The IO500 phase watchdog: it is shown the whole console output so far, again and
    again, and reads each new piece once.  How a line is recognised is a parameter. */
module WatchdogModel {
  import opened Options

  const STANDARD_PHASES: set<string> := {
    "ior-easy-write", "mdtest-easy-write", "ior-hard-write", "mdtest-hard-write", "find", "ior-easy-read",
    "mdtest-easy-stat", "ior-hard-read", "mdtest-hard-stat", "mdtest-easy-delete", "mdtest-hard-read",
    "mdtest-hard-delete", "ior-rnd4K-easy-read"}

  const FULL_PHASES: set<string> := STANDARD_PHASES + {
    "ior-rnd4K-write", "ior-rnd1MB-write", "mdworkbench-create", "find-easy", "ior-rnd4K-read",
    "ior-rnd1MB-read", "find-hard", "mdworkbench-bench", "mdworkbench-delete"}

  const LIMIT: real := 600.0

  /** A result line; the digits and dots of its duration need not form a number. */
  datatype Report = Report(phase: string, elapsed: Option<real>)

  /** `required` is what the watchdog waits for; the two functions classify a line. */
  datatype Rules = Rules(required: set<string>, banner: string -> bool, report: string -> Option<Report>)

  datatype Verdict = Quiet | BadNumber | PhaseTooLong(phase: string, elapsed: real) | WindowTooLong(after: string)

  /** What the watchdog knows about the phases. */
  datatype Gate = Gate(window: Option<real>, last: string, completed: set<string>)

  datatype Watch = Watch(offset: nat, partial: string, gate: Gate)

  datatype Observation = Observation(output: string, now: real)

  const Start: Watch := Watch(0, "", Gate(None, "before-first-result", {}))

  // --- Lines -----------------------------------------------------------------------

  /** One more character after text that was cut into `pieces`. */
  function Extend(pieces: seq<string>, c: char): (r: seq<string>)
    requires |pieces| > 0
    ensures |r| > 0
  {
    if c == '\n' then pieces + [""]
    else pieces[..|pieces| - 1] + [pieces[|pieces| - 1] + [c]]
  }

  function Split(s: string): (r: seq<string>)
    ensures |r| > 0
  {
    if s == "" then [""] else Extend(Split(s[..|s| - 1]), s[|s| - 1])
  }

  /** The lines that have ended. */
  function Complete(s: string): seq<string> {
    Split(s)[..|Split(s)| - 1]
  }

  /** The text after the last newline. */
  function Rest(s: string): string {
    Split(s)[|Split(s)| - 1]
  }

  // --- The watchdog ----------------------------------------------------------------

  function OneLine(rules: Rules, g: Gate, line: string, now: real): (Gate, Verdict) {
    var g' := if rules.banner(line) && g.window.None? then g.(window := Some(now)) else g;
    match rules.report(line)
    case None => (g', Quiet)
    case Some(Report(_, None)) => (g', BadNumber)
    case Some(Report(phase, Some(elapsed))) =>
      if phase !in rules.required then (g', Quiet)
      else if elapsed > LIMIT then (g', PhaseTooLong(phase, elapsed))
      else if phase in g'.completed then (g', Quiet)
      else (Gate(Some(now), phase, g'.completed + {phase}), Quiet)
  }

  function Absorb(rules: Rules, g: Gate, lines: seq<string>, now: real): (Gate, Verdict) {
    if lines == [] then (g, Quiet)
    else
      var before := Absorb(rules, g, lines[..|lines| - 1], now);
      if before.1.Quiet? then OneLine(rules, before.0, lines[|lines| - 1], now) else before
  }

  function Expired(rules: Rules, g: Gate, now: real): bool {
    g.window.Some? && g.completed != rules.required && now - g.window.value > LIMIT
  }

  /** Text not read yet.  An output shorter than what was read has none. */
  function Unread(w: Watch, output: string): string {
    w.partial + if w.offset <= |output| then output[w.offset..] else ""
  }

  /** The verdict after the lines, when the window is looked at too. */
  function Judge(rules: Rules, g: Gate, v: Verdict, now: real): Verdict {
    if v.Quiet? && Expired(rules, g, now) then WindowTooLong(g.last) else v
  }

  function Observe(rules: Rules, w: Watch, o: Observation): (Watch, Verdict) {
    var unread := Unread(w, o.output);
    var r := Absorb(rules, w.gate, Complete(unread), o.now);
    (Watch(|o.output|, Rest(unread), r.0), Judge(rules, r.0, r.1, o.now))
  }

  /** A run stops at the first observation that raises. */
  function Run(rules: Rules, obs: seq<Observation>): (Watch, Verdict) {
    if obs == [] then (Start, Quiet)
    else
      var before := Run(rules, obs[..|obs| - 1]);
      if before.1.Quiet? then Observe(rules, before.0, obs[|obs| - 1]) else before
  }

  /** The watchdog object. */
  class Watchdog {
    const rules: Rules
    var offset: nat
    var partial: string
    var windowStarted: Option<real>
    var lastPhase: string
    var completed: set<string>

    ghost function View(): Watch
      reads this
    {
      Watch(offset, partial, Gate(windowStarted, lastPhase, completed))
    }

    static predicate Acceptable(required: set<string>) {
      required != {} && required <= FULL_PHASES
    }

    constructor (r: Rules)
      requires Acceptable(r.required)
      ensures rules == r && View() == Start
    {
      rules := r;
      offset, partial, windowStarted, lastPhase, completed := 0, "", None, "before-first-result", {};
    }

    /** Creation, or nothing where the source raises. */
    static method Create(r: Rules) returns (w: Option<Watchdog>)
      ensures w.Some? <==> r.required != {} && r.required <= FULL_PHASES
      ensures w.Some? ==> w.value.rules == r && w.value.View() == Start
    {
      if Acceptable(r.required) {
        var made := new Watchdog(r);
        w := Some(made);
      } else {
        w := None;
      }
    }

    /** One line of an observation. */
    method TakeLine(line: string, now: real) returns (verdict: Verdict)
      modifies this`windowStarted, this`lastPhase, this`completed
      ensures (View().gate, verdict) == OneLine(rules, old(View()).gate, line, now)
    {
      if rules.banner(line) && windowStarted.None? {
        windowStarted := Some(now);
      }
      var found := rules.report(line);
      if found.None? {
        return Quiet;
      }
      if found.value.elapsed.None? {
        return BadNumber;
      }
      var phase, elapsed := found.value.phase, found.value.elapsed.value;
      if phase !in rules.required {
        return Quiet;
      }
      if elapsed > LIMIT {
        return PhaseTooLong(phase, elapsed);
      }
      if phase !in completed {
        completed := completed + {phase};
        lastPhase := phase;
        windowStarted := Some(now);
      }
      return Quiet;
    }

    method TakeLines(lines: seq<string>, now: real) returns (verdict: Verdict)
      modifies this`windowStarted, this`lastPhase, this`completed
      ensures (View().gate, verdict) == Absorb(rules, old(View()).gate, lines, now)
    {
      ghost var gate := View().gate;
      verdict := Quiet;
      var i := 0;
      while i < |lines|
        invariant 0 <= i <= |lines|
        invariant (View().gate, Quiet) == Absorb(rules, gate, lines[..i], now)
      {
        assert lines[..i + 1][..i] == lines[..i];
        verdict := TakeLine(lines[i], now);
        assert (View().gate, verdict) == Absorb(rules, gate, lines[..i + 1], now);
        if !verdict.Quiet? {
          AbsorbStops(rules, gate, lines, i + 1, now);
          return;
        }
        i := i + 1;
      }
      assert lines[..|lines|] == lines;
      return Quiet;
    }

    /** The check of the window, when no line raised. */
    method CheckWindow(soFar: Verdict, now: real) returns (verdict: Verdict)
      ensures verdict == Judge(rules, View().gate, soFar, now)
    {
      if soFar.Quiet? && windowStarted.Some? && completed != rules.required && now - windowStarted.value > LIMIT {
        return WindowTooLong(lastPhase);
      }
      return soFar;
    }

    method See(output: string, now: real) returns (verdict: Verdict)
      modifies this
      ensures (View(), verdict) == Observe(rules, old(View()), Observation(output, now))
    {
      var unread := partial + if offset <= |output| then output[offset..] else "";
      ghost var before := View();
      assert unread == Unread(before, output);
      offset := |output|;
      var lines := Split(unread);
      partial := lines[|lines| - 1];
      var soFar := TakeLines(lines[..|lines| - 1], now);
      verdict := CheckWindow(soFar, now);
    }
  }

  /** Lines after one that raises are not read. */
  lemma {:induction false} AbsorbStops(rules: Rules, g: Gate, lines: seq<string>, k: nat, now: real)
    requires k <= |lines| && !Absorb(rules, g, lines[..k], now).1.Quiet?
    ensures Absorb(rules, g, lines, now) == Absorb(rules, g, lines[..k], now)
    decreases |lines|
  {
    if k == |lines| {
      assert lines[..k] == lines;
    } else {
      assert lines[..|lines| - 1][..k] == lines[..k];
      AbsorbStops(rules, g, lines[..|lines| - 1], k, now);
    }
  }
}
