/**
 * The line processor: the state machine that follows make's directory announcements
 * and prefixes compiler diagnostics with the directory make reported them from.
 */
module Processor {
  import opened Wrappers
  import opened Text
  import opened Paths
  import opened Patterns

  /** The message the processor panics with when the directory being left has no parent. */
  const NoParentMessage := "failed to identify parent path"

  /** What one line does: the directory afterwards, and the line to print, if any. */
  datatype Transition = Transition(dir: string, output: Option<string>)

  /**
   * One call of `process_line`, as a function of the tracked directory and the line.
   * The trimmed line is tried against the enter pattern, the leave pattern and the
   * diagnostic pattern, in that order. A leave line naming another directory than the
   * tracked one falls out of the if-chain and prints nothing.
   */
  function Step(dir: string, line: string): Result<Transition> {
    var trimmed := TrimEnd(line);
    match MatchAnnouncement(trimmed, Entering)
    case Some(entered) => Ok(Transition(entered, Some(trimmed)))
    case None =>
      match MatchAnnouncement(trimmed, Leaving)
      case Some(left) =>
        if left == dir then
          match Parent(left)
          case None => Panic(NoParentMessage)
          case Some(parent) => Ok(Transition(parent, Some(trimmed)))
        else Ok(Transition(dir, None))
      case None => Ok(Transition(dir, Some(Annotate(dir, trimmed))))
  }

  /** What a trimmed line that announces nothing prints: itself, after `dir/` when it is a diagnostic. */
  function Annotate(dir: string, trimmed: string): string {
    if IsDiagnostic(trimmed) then dir + "/" + trimmed else trimmed
  }

  /** The trimmed line is an enter or a leave announcement. */
  predicate Announces(trimmed: string) {
    MatchAnnouncement(trimmed, Entering).Some? || MatchAnnouncement(trimmed, Leaving).Some?
  }

  /** The lines `print_line` writes for a result of `process_line`: none or one. */
  function Emitted(output: Option<string>): seq<string> {
    match output
    case None => []
    case Some(line) => [line]
  }

  /** The processor object: the tracked directory, updated in place line by line. */
  class LineProcessor {
    /** The directory make last announced; empty before any announcement. */
    var currentDir: string

    /** `LineProcessor::new`: nothing announced yet. */
    constructor ()
      ensures currentDir == ""
    {
      currentDir := "";
    }

    /** `process_line`: classify one line, update the tracked directory, say what to print. */
    method ProcessLine(line: string) returns (r: Result<Option<string>>)
      modifies this
      ensures Step(old(currentDir), line).Ok? ==>
        r == Ok(Step(old(currentDir), line).value.output) && currentDir == Step(old(currentDir), line).value.dir
      ensures Step(old(currentDir), line).Panic? ==>
        r == Panic(NoParentMessage) && currentDir == old(currentDir)
    {
      var trimmed := TrimEnd(line);
      var entered := MatchAnnouncement(trimmed, Entering);
      if entered.Some? {
        currentDir := entered.value;
        return Ok(Some(trimmed));
      }
      var left := MatchAnnouncement(trimmed, Leaving);
      if left.Some? {
        if left.value == currentDir {
          var parent := Parent(left.value);
          if parent.None? {
            return Panic(NoParentMessage);
          }
          currentDir := parent.value;
          return Ok(Some(trimmed));
        }
      } else if IsDiagnostic(trimmed) {
        return Ok(Some(currentDir + "/" + trimmed));
      } else {
        return Ok(Some(trimmed));
      }
      return Ok(None);
    }

    /** `print_line`: process one line and hand back what would be printed for it. */
    method PrintLine(line: string) returns (r: Result<seq<string>>)
      modifies this
      ensures Step(old(currentDir), line).Ok? ==>
        r == Ok(Emitted(Step(old(currentDir), line).value.output)) && currentDir == Step(old(currentDir), line).value.dir
      ensures Step(old(currentDir), line).Panic? ==>
        r == Panic(NoParentMessage) && currentDir == old(currentDir)
    {
      var processed := ProcessLine(line);
      match processed
      case Panic(message) => r := Panic(message);
      case Ok(output) => r := Ok(Emitted(output));
    }
  }

  /** A run over make's output: the directory reached, the lines printed, and the panic that ended it early, if any. */
  datatype Session = Session(dir: string, printed: seq<string>, panic: Option<string>)

  /**
   * Feeding `lines` one by one through `step`, starting from the tracked directory `dir`,
   * and stopping at the first panic. The lemmas about the fold hold for any step.
   */
  function RunWith(step: (string, string) -> Result<Transition>, dir: string, lines: seq<string>): Session
    decreases |lines|
  {
    if lines == [] then Session(dir, [], None)
    else
      match step(dir, lines[0])
      case Panic(message) => Session(dir, [], Some(message))
      case Ok(t) =>
        var rest := RunWith(step, t.dir, lines[1..]);
        Session(rest.dir, Emitted(t.output) + rest.printed, rest.panic)
  }

  /** Feeding `lines` to a processor whose tracked directory is `dir`. */
  function Run(dir: string, lines: seq<string>): Session {
    RunWith(Step, dir, lines)
  }

  /** Carrying on from a session with more lines, unless it already panicked. */
  function ResumeWith(step: (string, string) -> Result<Transition>, s: Session, lines: seq<string>): Session {
    if s.panic.Some? then s
    else
      var next := RunWith(step, s.dir, lines);
      Session(next.dir, s.printed + next.printed, next.panic)
  }

  /**
   * The read loop of `main`, without the reading: a fresh processor is fed the lines
   * in order and what it prints is collected, until the lines run out or it panics.
   */
  method Filter(lines: seq<string>) returns (s: Session)
    ensures s == Run("", lines)
  {
    var proc := new LineProcessor();
    var printed: seq<string> := [];
    var i := 0;
    while i < |lines|
      invariant 0 <= i <= |lines|
      invariant RunWith(Step, "", lines[..i]) == Session(proc.currentDir, printed, None)
    {
      ghost var dir := proc.currentDir;
      var r := proc.PrintLine(lines[i]);
      if r.Panic? {
        RunStopsAt(Step, lines, i, dir, printed);
        return Session(proc.currentDir, printed, Some(r.message));
      }
      RunExtends(Step, lines, i, dir, printed);
      printed := printed + r.value;
      i := i + 1;
    }
    assert lines[..i] == lines;
    s := Session(proc.currentDir, printed, None);
  }

  /** One more line that does not panic extends a run by what that line prints. */
  lemma RunExtends(step: (string, string) -> Result<Transition>, lines: seq<string>, i: nat, dir: string, printed: seq<string>)
    requires i < |lines| && RunWith(step, "", lines[..i]) == Session(dir, printed, None)
    requires step(dir, lines[i]).Ok?
    ensures var t := step(dir, lines[i]).value;
      RunWith(step, "", lines[..i + 1]) == Session(t.dir, printed + Emitted(t.output), None)
  {
    RunSingle(step, dir, lines[i]);
    RunAppend(step, "", lines[..i], [lines[i]]);
    assert lines[..i + 1] == lines[..i] + [lines[i]];
  }

  /** A line that panics ends the run there, with what was printed before it. */
  lemma RunStopsAt(step: (string, string) -> Result<Transition>, lines: seq<string>, i: nat, dir: string, printed: seq<string>)
    requires i < |lines| && RunWith(step, "", lines[..i]) == Session(dir, printed, None)
    requires step(dir, lines[i]).Panic?
    ensures RunWith(step, "", lines) == Session(dir, printed, Some(step(dir, lines[i]).message))
  {
    RunAppend(step, "", lines[..i], lines[i..]);
    assert lines[..i] + lines[i..] == lines;
    assert lines[i..][0] == lines[i];
    assert printed + [] == printed;
  }

  /** A run over a single line is one step. */
  lemma RunSingle(step: (string, string) -> Result<Transition>, dir: string, line: string)
    ensures step(dir, line).Ok? ==>
      RunWith(step, dir, [line]) == Session(step(dir, line).value.dir, Emitted(step(dir, line).value.output), None)
    ensures step(dir, line).Panic? ==> RunWith(step, dir, [line]) == Session(dir, [], Some(step(dir, line).message))
  {
    assert [line][1..] == [];
    if step(dir, line).Ok? {
      var e := Emitted(step(dir, line).value.output);
      assert e + [] == e;
    }
  }

  /** Running two stretches of output one after the other is running them together. */
  lemma {:induction false} RunAppend(step: (string, string) -> Result<Transition>, dir: string, a: seq<string>, b: seq<string>)
    ensures RunWith(step, dir, a + b) == ResumeWith(step, RunWith(step, dir, a), b)
    decreases |a|
  {
    if a == [] {
      assert a + b == b;
      assert [] + RunWith(step, dir, b).printed == RunWith(step, dir, b).printed;
    } else {
      assert (a + b)[0] == a[0];
      assert (a + b)[1..] == a[1..] + b;
      match step(dir, a[0])
      case Panic(_) =>
      case Ok(t) =>
        var rest := RunWith(step, t.dir, a[1..]);
        RunAppend(step, t.dir, a[1..], b);
        if rest.panic.None? {
          var next := RunWith(step, rest.dir, b);
          assert Emitted(t.output) + (rest.printed + next.printed) == (Emitted(t.output) + rest.printed) + next.printed;
        }
    }
  }

  /** A run prints at most one line per line it reads. */
  lemma {:induction false} RunPrintsAtMostOnePerLine(step: (string, string) -> Result<Transition>, dir: string, lines: seq<string>)
    ensures |RunWith(step, dir, lines).printed| <= |lines|
    decreases |lines|
  {
    if lines != [] {
      match step(dir, lines[0])
      case Panic(_) =>
      case Ok(t) =>
        RunPrintsAtMostOnePerLine(step, t.dir, lines[1..]);
    }
  }

  // One line at a time. The `...At` lemmas read off `Step` once the matchers' verdicts
  // are known; the others establish those verdicts for each shape of line.

  lemma StepAtEnter(dir: string, line: string, path: string)
    requires MatchAnnouncement(TrimEnd(line), Entering) == Some(path)
    ensures Step(dir, line) == Ok(Transition(path, Some(TrimEnd(line))))
  {
  }

  lemma StepAtLeave(dir: string, line: string, left: string)
    requires MatchAnnouncement(TrimEnd(line), Entering).None? && MatchAnnouncement(TrimEnd(line), Leaving) == Some(left)
    ensures left != dir ==> Step(dir, line) == Ok(Transition(dir, None))
    ensures left == dir && Parent(dir).None? ==> Step(dir, line) == Panic(NoParentMessage)
    ensures left == dir && Parent(dir).Some? ==> Step(dir, line) == Ok(Transition(Parent(dir).value, Some(TrimEnd(line))))
  {
  }

  lemma StepAtOther(dir: string, line: string)
    requires !Announces(TrimEnd(line))
    ensures Step(dir, line) == Ok(Transition(dir, Some(Annotate(dir, TrimEnd(line)))))
  {
  }

  /**
   * An enter line, followed by anything, makes the quoted path the tracked directory,
   * whatever it was before, and is printed with its trailing whitespace removed.
   */
  lemma StepEnter(dir: string, level: char, path: string, rest: string)
    requires IsLevel(level) && IsCapture(path)
    ensures var a := Announcement(level, Entering, path);
      Step(dir, a + rest) == Ok(Transition(path, Some(a + TrimEnd(rest))))
  {
    var a := Announcement(level, Entering, path);
    AnnouncementEndsClean(level, Entering, path);
    TrimEndAppend(a, rest);
    MatchAnnouncementOf(level, Entering, path, TrimEnd(rest));
    StepAtEnter(dir, a + rest, path);
  }

  /**
   * Leaving the tracked directory moves to its parent and prints the trimmed line; it
   * panics exactly when the directory is all separators, which has no parent. The new
   * directory is a proper prefix of the old one, cut before its last component.
   */
  lemma StepLeaveCurrent(dir: string, level: char, rest: string)
    requires IsLevel(level) && IsCapture(dir)
    ensures var a := Announcement(level, Leaving, dir);
      (Step(dir, a + rest).Panic? <==> AllSlashes(dir))
      && (Step(dir, a + rest).Panic? ==> Step(dir, a + rest) == Panic(NoParentMessage))
      && (Step(dir, a + rest).Ok? ==> Step(dir, a + rest) == Ok(Transition(Parent(dir).value, Some(a + TrimEnd(rest)))))
    ensures Step(dir, Announcement(level, Leaving, dir) + rest).Ok? ==>
      var p := Step(dir, Announcement(level, Leaving, dir) + rest).value.dir;
      IsParentForm(p) && |p| < |dir| && dir[..|p|] == p
      && IsSegment(TrimTrailingSlashes(TrimLeadingSlashes(dir[|p|..])))
      && (p == "" || p == "/" || dir[|p|] == '/')
  {
    var a := Announcement(level, Leaving, dir);
    AnnouncementEndsClean(level, Leaving, dir);
    TrimEndAppend(a, rest);
    MatchAnnouncementOf(level, Leaving, dir, TrimEnd(rest));
    VerbsExclusive(a + TrimEnd(rest));
    StepAtLeave(dir, a + rest, dir);
    ParentNone(dir);
    if Parent(dir).Some? {
      ParentSplit(dir, Parent(dir).value);
    }
  }

  /** Leaving `parent/seg` while it is tracked goes back to `parent`. */
  lemma StepLeaveJoined(parent: string, seg: string, level: char, rest: string)
    requires IsLevel(level) && IsParentForm(parent) && IsSegment(seg) && '\'' !in Join(parent, seg)
    ensures var dir := Join(parent, seg);
      var a := Announcement(level, Leaving, dir);
      Step(dir, a + rest) == Ok(Transition(parent, Some(a + TrimEnd(rest))))
  {
    var dir := Join(parent, seg);
    ParentOfJoin(parent, seg);
    ParentNone(dir);
    StepLeaveCurrent(dir, level, rest);
  }

  /** A leave line naming another directory than the tracked one changes nothing and prints nothing. */
  lemma StepLeaveOther(dir: string, level: char, path: string, rest: string)
    requires IsLevel(level) && IsCapture(path) && path != dir
    ensures Step(dir, Announcement(level, Leaving, path) + rest) == Ok(Transition(dir, None))
  {
    var a := Announcement(level, Leaving, path);
    AnnouncementEndsClean(level, Leaving, path);
    TrimEndAppend(a, rest);
    MatchAnnouncementOf(level, Leaving, path, TrimEnd(rest));
    VerbsExclusive(a + TrimEnd(rest));
    StepAtLeave(dir, a + rest, path);
  }

  /**
   * A well-formed diagnostic keeps the directory and is printed after the tracked
   * directory and a separator, with the trailing whitespace of its message removed.
   */
  lemma StepDiagnostic(dir: string, d: Diagnostic)
    requires WellFormed(d)
    ensures Step(dir, Render(d)) == Ok(Transition(dir, Some(dir + "/" + Render(d.(message := TrimEnd(d.message))))))
  {
    var pre := d.file + ":" + d.line + ":" + d.column + ": " + Keyword(d.severity) + ":";
    var d' := d.(message := TrimEnd(d.message));
    assert Render(d) == pre + d.message && Render(d') == pre + TrimEnd(d.message);
    assert pre[|pre| - 1] == ':';
    TrimEndAppend(pre, d.message);
    ParseDiagnosticComplete(d');
    AnnouncementNotDiagnostic(Render(d'), Entering);
    AnnouncementNotDiagnostic(Render(d'), Leaving);
    StepAtOther(dir, Render(d));
  }

  /** A line that starts with a separator is neither announcement nor diagnostic: it passes through trimmed. */
  lemma StepAbsolute(dir: string, line: string)
    requires |line| > 0 && line[0] == '/'
    ensures Step(dir, line) == Ok(Transition(dir, Some(TrimEnd(line))))
  {
    var t := TrimEnd(line);
    assert |t| > 0 by {
      assert !IsWhitespace(line[0]);
    }
    assert t[0] == '/';
    FirstCharacters(t, Entering);
    FirstCharacters(t, Leaving);
    StepAtOther(dir, line);
  }

  /**
   * An announcement whose level is a numeral other than a single digit from 1 to 9
   * (`make[0]`, `make[12]`) is neither announcement nor diagnostic: it passes through trimmed.
   */
  lemma StepBadLevel(dir: string, level: string, v: Verb, path: string, rest: string)
    requires IsNumeral(level) && !(|level| == 1 && IsLevel(level[0]))
    ensures var line := "make[" + level + "]: " + VerbWord(v) + " directory '" + path + "'" + rest;
      Step(dir, line) == Ok(Transition(dir, Some(TrimEnd(line))))
  {
    var p := "make[" + level + "]: " + VerbWord(v) + " directory '" + path + "'";
    var line := p + rest;
    var tail := " " + VerbWord(v) + " directory '" + path + "'" + TrimEnd(rest);
    assert TrimEnd(line) == "make[" + level + "]:" + tail by {
      assert p[|p| - 1] == '\'';
      TrimEndAppend(p, rest);
    }
    BadLevelText(level, tail);
    StepAtOther(dir, line);
  }

  /** `make[<level>]:` followed by a space announces nothing when the level is no digit from 1 to 9, and is no diagnostic. */
  lemma BadLevelText(level: string, tail: string)
    requires IsNumeral(level) && !(|level| == 1 && IsLevel(level[0]))
    requires |tail| > 0 && tail[0] == ' '
    ensures !Announces("make[" + level + "]:" + tail) && !IsDiagnostic("make[" + level + "]:" + tail)
  {
    var t := "make[" + level + "]:" + tail;
    var j := 5 + |level|;
    assert t[5] == level[0];
    assert t[j] == ']' && t[j + 1] == ':' && t[j + 2] == ' ';
    assert |level| > 1 ==> t[6] == level[1];
    NotAnnouncementAt(t, Entering);
    NotAnnouncementAt(t, Leaving);
    assert ':' !in t[1..j + 1] by {
      var w := t[1..j + 1];
      forall k | 0 <= k < |w|
        ensures w[k] != ':'
      {
        assert w[k] == t[k + 1];
        if 4 <= k < j - 1 {
          assert t[k + 1] == level[k - 4];
        }
      }
    }
    NotDiagnosticAt(t, j);
  }

  /** An announcement head whose quote is never closed (`'([^']+)'` fails) passes through trimmed. */
  lemma StepUnclosedQuote(dir: string, level: char, v: Verb, text: string)
    requires IsLevel(level) && '\'' !in text
    ensures Step(dir, Head(level, v) + text) == Ok(Transition(dir, Some(Head(level, v) + TrimEnd(text))))
  {
    var h := Head(level, v);
    var u := TrimEnd(text);
    assert TrimEnd(h + text) == h + u by {
      HeadShape(level, v);
      TrimEndAppend(h, text);
    }
    assert '\'' !in u by {
      assert forall i :: 0 <= i < |u| ==> u[i] == text[i];
    }
    UnclosedText(level, v, u);
    StepAtOther(dir, h + text);
  }

  /** An announcement head followed by quote-free text announces nothing and is no diagnostic. */
  lemma UnclosedText(level: char, v: Verb, u: string)
    requires IsLevel(level) && '\'' !in u
    ensures !Announces(Head(level, v) + u) && !IsDiagnostic(Head(level, v) + u)
  {
    var h := Head(level, v);
    var t := h + u;
    UnclosedNotAnnouncement(level, v, u, Entering);
    UnclosedNotAnnouncement(level, v, u, Leaving);
    HeadShape(level, v);
    assert t[1..7] == h[1..7] && t[7] == h[7] && t[8] == h[8];
    NotDiagnosticAt(t, 6);
  }

  /**
   * Only enter lines and leave lines naming the tracked directory move it; only a
   * leave line naming another directory prints nothing; only a leave of a directory
   * made of separators panics.
   */
  lemma StepFrame(dir: string, line: string)
    ensures Step(dir, line).Ok? && Step(dir, line).value.dir != dir ==>
      MatchAnnouncement(TrimEnd(line), Entering) == Some(Step(dir, line).value.dir)
      || (MatchAnnouncement(TrimEnd(line), Leaving) == Some(dir) && Parent(dir) == Some(Step(dir, line).value.dir))
    ensures Step(dir, line).Ok? && Step(dir, line).value.output.None? ==>
      Step(dir, line).value.dir == dir
      && MatchAnnouncement(TrimEnd(line), Leaving).Some? && MatchAnnouncement(TrimEnd(line), Leaving).value != dir
    ensures Step(dir, line).Panic? ==> MatchAnnouncement(TrimEnd(line), Leaving) == Some(dir) && AllSlashes(dir)
    ensures !Announces(TrimEnd(line)) ==> Step(dir, line).Ok? && Step(dir, line).value.dir == dir
  {
    ParentNone(dir);
  }

  // Whole runs.

  /** A run over lines that each keep the directory and print one line prints exactly those lines. */
  lemma {:induction false} RunQuiet(step: (string, string) -> Result<Transition>, dir: string, lines: seq<string>, outs: seq<string>)
    requires |outs| == |lines|
    requires forall i :: 0 <= i < |lines| ==> step(dir, lines[i]) == Ok(Transition(dir, Some(outs[i])))
    ensures RunWith(step, dir, lines) == Session(dir, outs, None)
    decreases |lines|
  {
    if lines != [] {
      assert step(dir, lines[0]) == Ok(Transition(dir, Some(outs[0])));
      assert forall i :: 0 <= i < |lines[1..]| ==> lines[1..][i] == lines[i + 1] && outs[1..][i] == outs[i + 1];
      RunQuiet(step, dir, lines[1..], outs[1..]);
      assert [outs[0]] + outs[1..] == outs;
    }
  }

  /**
   * Output with no directory announcements keeps the tracked directory, never panics,
   * and prints one line per line, in order: each trimmed, and each diagnostic after
   * the directory.
   */
  lemma RunWithoutAnnouncements(dir: string, lines: seq<string>)
    requires forall i :: 0 <= i < |lines| ==> !Announces(TrimEnd(lines[i]))
    ensures Run(dir, lines) == Session(dir, seq(|lines|, i requires 0 <= i < |lines| => Annotate(dir, TrimEnd(lines[i]))), None)
  {
    var outs := seq(|lines|, i requires 0 <= i < |lines| => Annotate(dir, TrimEnd(lines[i])));
    forall i | 0 <= i < |lines|
      ensures Step(dir, lines[i]) == Ok(Transition(dir, Some(outs[i])))
    {
      StepAtOther(dir, lines[i]);
    }
    RunQuiet(Step, dir, lines, outs);
  }

  /** A printed line with no announcement in it is printed unchanged when it is read again. */
  lemma AnnotatedIsStable(d: string, e: string, line: string)
    requires !Announces(TrimEnd(line)) && (d == "" || d[0] == '/')
    ensures Step(e, Annotate(d, TrimEnd(line))) == Ok(Transition(e, Some(Annotate(d, TrimEnd(line)))))
  {
    var t := TrimEnd(line);
    TrimEndIdempotent(line);
    if IsDiagnostic(t) {
      var o := d + "/" + t;
      FirstCharacters(t, Entering);
      assert o[|o| - 1] == t[|t| - 1];
      TrimEndOfClean(o);
      StepAbsolute(e, o);
    } else {
      StepAtOther(e, t);
    }
  }

  /**
   * Feeding what a run printed back through a processor reproduces it, when the first
   * run saw no announcements and its directory was empty or absolute.
   */
  lemma RunIdempotent(d: string, e: string, lines: seq<string>)
    requires forall i :: 0 <= i < |lines| ==> !Announces(TrimEnd(lines[i]))
    requires d == "" || d[0] == '/'
    ensures Run(e, Run(d, lines).printed) == Session(e, Run(d, lines).printed, None)
  {
    RunWithoutAnnouncements(d, lines);
    var outs := Run(d, lines).printed;
    forall i | 0 <= i < |outs|
      ensures Step(e, outs[i]) == Ok(Transition(e, Some(outs[i])))
    {
      AnnotatedIsStable(d, e, lines[i]);
    }
    RunQuiet(Step, e, outs, outs);
  }

  /**
   * An enter line and the matching leave line around output without announcements:
   * everything in between is annotated with the entered directory, and the run ends
   * in the directory it was entered from.
   */
  lemma RunBracket(dir: string, level: char, parent: string, seg: string, body: seq<string>)
    requires IsLevel(level) && IsParentForm(parent) && IsSegment(seg) && '\'' !in Join(parent, seg)
    requires forall i :: 0 <= i < |body| ==> !Announces(TrimEnd(body[i]))
    ensures var inner := Join(parent, seg);
      var enter := Announcement(level, Entering, inner);
      var leave := Announcement(level, Leaving, inner);
      Run(dir, [enter] + body + [leave])
        == Session(parent, [enter] + seq(|body|, i requires 0 <= i < |body| => Annotate(inner, TrimEnd(body[i]))) + [leave], None)
  {
    var inner := Join(parent, seg);
    var enter := Announcement(level, Entering, inner);
    var leave := Announcement(level, Leaving, inner);
    var outs := seq(|body|, i requires 0 <= i < |body| => Annotate(inner, TrimEnd(body[i])));
    assert |inner| > 0;
    assert enter + "" == enter && leave + "" == leave;
    StepEnter(dir, level, inner, "");
    RunSingle(Step, dir, enter);
    RunWithoutAnnouncements(inner, body);
    StepLeaveJoined(parent, seg, level, "");
    RunSingle(Step, inner, leave);
    RunAppend(Step, dir, [enter], body);
    RunAppend(Step, dir, [enter] + body, [leave]);
  }

  /**
   * The walk `interpret_line` takes a processor on: an unrelated line, an enter line,
   * the matching leave line, a leave line whose quote is never closed, and a
   * diagnostic. Returns the directory after construction and after each line, and what
   * the diagnostic line produced.
   */
  method InterpretLine() returns (dirs: seq<string>, diagnostic: Result<Option<string>>)
    ensures dirs == ["", "", "/home/me/source/main", "/home/me/source", "/home/me/source"]
    ensures diagnostic == Ok(Some("/home/me/source/" + "ui/mainform.cpp:32:5: error: syntax error"))
  {
    var tracker := new LineProcessor();
    var created := tracker.currentDir;

    RandomLine(tracker.currentDir);
    var _ := tracker.ProcessLine("random line");
    var afterRandom := tracker.currentDir;

    EnterMain(tracker.currentDir);
    var _ := tracker.ProcessLine("make[1]: Entering directory '/home/me/source/main'");
    var afterEnter := tracker.currentDir;

    LeaveMain(tracker.currentDir);
    var _ := tracker.ProcessLine("make[1]: Leaving directory '/home/me/source/main'");
    var afterLeave := tracker.currentDir;

    LeaveUnclosed(tracker.currentDir);
    var _ := tracker.ProcessLine("make[1]: Leaving directory '/home/me/something/else");
    var afterUnclosed := tracker.currentDir;

    MainformText();
    MainformWellFormed();
    DiagnosticLine(tracker.currentDir, Diagnostic("ui/mainform.cpp", "32", "5", Error, " syntax error"), "ui/mainform.cpp:32:5: error: syntax error");
    SourceText();
    diagnostic := tracker.ProcessLine("ui/mainform.cpp:32:5: error: syntax error");
    dirs := [created, afterRandom, afterEnter, afterLeave, afterUnclosed];
  }

  // The steps of that walk, each established on its own. The solver compares string
  // literals character by character, which is costly in a large context; so each
  // `...Text` lemma proves one spelling the walk needs, a few pieces at a time.

  lemma RandomLine(dir: string)
    ensures Step(dir, "random line") == Ok(Transition(dir, Some("random line")))
  {
    var line := "random line";
    TrimEndOfClean(line);
    NotAnnouncementAt(line, Entering);
    NotAnnouncementAt(line, Leaving);
    assert !IsDiagnostic(line) by {
      assert ':' !in line[1..];
    }
    StepAtOther(dir, line);
  }

  lemma EnterMain(dir: string)
    ensures Step(dir, "make[1]: Entering directory '/home/me/source/main'")
      == Ok(Transition("/home/me/source/main", Some("make[1]: Entering directory '/home/me/source/main'")))
  {
    EnterMainText();
    StepEnter(dir, '1', "/home/me/source/main", "");
  }

  lemma LeaveMain(dir: string)
    requires dir == "/home/me/source/main"
    ensures Step(dir, "make[1]: Leaving directory '/home/me/source/main'")
      == Ok(Transition("/home/me/source", Some("make[1]: Leaving directory '/home/me/source/main'")))
  {
    LeaveMainText();
    SourceText();
    StepLeaveJoined("/home/me/source", "main", '1', "");
  }

  lemma LeaveUnclosed(dir: string)
    ensures Step(dir, "make[1]: Leaving directory '/home/me/something/else")
      == Ok(Transition(dir, Some("make[1]: Leaving directory '/home/me/something/else")))
  {
    var text := "/home/me/something/else";
    LeaveUnclosedText();
    TrimEndOfClean(text);
    StepUnclosedQuote(dir, '1', Leaving, text);
  }

  /** A diagnostic line whose message has no trailing whitespace is printed after the directory as it is. */
  lemma DiagnosticLine(dir: string, d: Diagnostic, line: string)
    requires WellFormed(d) && Render(d) == line && TrimEnd(d.message) == d.message
    ensures Step(dir, line) == Ok(Transition(dir, Some(dir + "/" + line)))
  {
    assert d.(message := TrimEnd(d.message)) == d;
    StepDiagnostic(dir, d);
  }

  lemma EnterMainText()
    ensures Announcement('1', Entering, "/home/me/source/main") + "" == "make[1]: Entering directory '/home/me/source/main'"
  {
    HeadText();
    assert "make[1]: Entering directory '" + "/home/me/source/main" == "make[1]: Entering directory '/home/me/source/main";
    assert "make[1]: Entering directory '/home/me/source/main" + "'" == "make[1]: Entering directory '/home/me/source/main'";
  }

  lemma LeaveMainText()
    ensures Announcement('1', Leaving, Join("/home/me/source", "main")) + "" == "make[1]: Leaving directory '/home/me/source/main'"
  {
    HeadText();
    SourceText();
    assert "make[1]: Leaving directory '" + "/home/me/source/main" == "make[1]: Leaving directory '/home/me/source/main";
    assert "make[1]: Leaving directory '/home/me/source/main" + "'" == "make[1]: Leaving directory '/home/me/source/main'";
  }

  /** The test's directory, with a separator and with its `main` component after it. */
  lemma SourceText()
    ensures "/home/me/source" + "/" == "/home/me/source/"
    ensures Join("/home/me/source", "main") == "/home/me/source/main"
  {
  }

  lemma LeaveUnclosedText()
    ensures Head('1', Leaving) + "/home/me/something/else" == "make[1]: Leaving directory '/home/me/something/else"
  {
    HeadText();
  }

  lemma MainformText()
    ensures Render(Diagnostic("ui/mainform.cpp", "32", "5", Error, " syntax error")) == "ui/mainform.cpp:32:5: error: syntax error"
  {
    assert "ui/mainform.cpp" + ":" + "32" == "ui/mainform.cpp:32";
    assert "ui/mainform.cpp:32" + ":" + "5" == "ui/mainform.cpp:32:5";
    assert "ui/mainform.cpp:32:5" + ": " + "error" == "ui/mainform.cpp:32:5: error";
  }

  lemma MainformWellFormed()
    ensures var d := Diagnostic("ui/mainform.cpp", "32", "5", Error, " syntax error");
      WellFormed(d) && TrimEnd(d.message) == d.message
  {
    var d := Diagnostic("ui/mainform.cpp", "32", "5", Error, " syntax error");
    assert d.file[1..] == "i/mainform.cpp";
    MainformFileText();
    TrimEndOfClean(d.message);
  }

  lemma MainformFileText()
    ensures ':' !in "i/mainform.cpp"
  {
    var f := "i/mainform.cpp";
    assert forall i :: 0 <= i < |f| ==> f[i] != ':';
  }

  /** The two announcement heads at level 1, spelled out. */
  lemma HeadText()
    ensures Head('1', Entering) == "make[1]: Entering directory '"
    ensures Head('1', Leaving) == "make[1]: Leaving directory '"
  {
    assert "make[" + ['1'] + "]: " == "make[1]: ";
    assert "make[1]: " + "Entering" == "make[1]: Entering";
    assert "make[1]: Entering" + " directory '" == "make[1]: Entering directory '";
    assert "make[1]: " + "Leaving" == "make[1]: Leaving";
    assert "make[1]: Leaving" + " directory '" == "make[1]: Leaving directory '";
  }
}
