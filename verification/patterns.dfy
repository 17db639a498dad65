/**
 * The three line patterns the processor compiles once at construction, written as
 * matchers over strings:
 *   enter:      ^make\[[1-9]\]: Entering directory '([^']+)'
 *   leave:      ^make\[[1-9]\]: Leaving directory '([^']+)'
 *   diagnostic: ^[^/][^:]+:[0-9]+:[0-9]+: (error|warning|note):
 * None of them is anchored at the end, so anything may follow the matched text.
 */
module Patterns {
  import opened Wrappers
  import opened Text

  /** The two directory announcements make prints around a recursive invocation. */
  datatype Verb = Entering | Leaving

  /** The word make prints for each verb. */
  function VerbWord(v: Verb): string {
    match v
    case Entering => "Entering"
    case Leaving => "Leaving"
  }

  /** Everything an announcement line carries before the path: `make[<level>]: <verb> directory '`. */
  function Head(level: char, v: Verb): string {
    "make[" + [level] + "]: " + VerbWord(v) + " directory '"
  }

  /** A complete announcement: the head, the path and the closing quote. */
  function Announcement(level: char, v: Verb, path: string): string {
    Head(level, v) + path + "'"
  }

  /** The recursion levels `[1-9]` accepts: one digit, not zero. */
  predicate IsLevel(c: char) {
    '1' <= c <= '9'
  }

  /** What `([^']+)` captures: a non-empty run free of quotes. */
  predicate IsCapture(path: string) {
    |path| > 0 && '\'' !in path
  }

  /**
   * The announcement pattern for verb `v`: the captured path, or `None` when `s` does
   * not match. The capture is the longest quote-free run after the opening quote, and
   * it must be non-empty and closed by a quote.
   */
  function MatchAnnouncement(s: string, v: Verb): (r: Option<string>)
    ensures r.Some? ==> |s| > 5 && IsLevel(s[5]) && IsCapture(r.value)
  {
    var n := HeadLength(v);
    if |s| >= n && IsLevel(s[5]) && s[..n] == Head(s[5], v) then
      match FirstIndex(s[n..], '\'')
      case Some(j) =>
        if j > 0 then
          var path := s[n..n + j];
          Some(path)
        else None
      case None => None
    else None
  }

  /** `s` up to and including a quote at `n + j` is its first `n` characters, the run before the quote, and the quote. */
  lemma SplitAtQuote(s: string, n: nat, j: nat)
    requires n + j < |s| && s[n + j] == '\''
    ensures s[..n + j + 1] == s[..n] + s[n..n + j] + "'"
  {
  }

  /** A line the pattern accepts begins with the announcement of the path it captured. */
  lemma MatchAnnouncementSound(s: string, v: Verb)
    requires MatchAnnouncement(s, v).Some?
    ensures var a := Announcement(s[5], v, MatchAnnouncement(s, v).value);
      |a| <= |s| && s[..|a|] == a
  {
    var n := HeadLength(v);
    var j := FirstIndex(s[n..], '\'').value;
    var path := MatchAnnouncement(s, v).value;
    assert path == s[n..n + j];
    assert s[..n] == Head(s[5], v);
    assert s[n + j] == s[n..][j];
    SplitAtQuote(s, n, j);
    assert Announcement(s[5], v, path) == s[..n] + path + "'";
  }

  /** Every announcement of a valid level and path matches, and yields that path. */
  lemma MatchAnnouncementOf(level: char, v: Verb, path: string, rest: string)
    requires IsLevel(level) && IsCapture(path)
    ensures MatchAnnouncement(Announcement(level, v, path) + rest, v) == Some(path)
  {
    var head := Head(level, v);
    var tail := path + "'" + rest;
    AnnouncementSplit(level, v, path, rest);
    HeadShape(level, v);
    SliceOfConcat(head, tail, |path|);
    FirstQuoteAfter(path, rest);
    MatchAnnouncementAt(head + tail, v, |path|);
  }

  /** An announcement followed by more text is its head followed by the path, the quote and that text. */
  lemma AnnouncementSplit(level: char, v: Verb, path: string, rest: string)
    ensures Announcement(level, v, path) + rest == Head(level, v) + (path + "'" + rest)
  {
  }

  /** The length every announcement head of verb `v` has, whatever its level. */
  function HeadLength(v: Verb): nat {
    |"make["| + 1 + |"]: "| + |VerbWord(v)| + |" directory '"|
  }

  /** Slices of a concatenation at the seam. */
  lemma SliceOfConcat(a: string, b: string, k: nat)
    requires k <= |b|
    ensures (a + b)[..|a|] == a && (a + b)[|a|..] == b && (a + b)[|a|..|a| + k] == b[..k]
  {
  }

  /** The matcher's verdict once its guard is known to hold and the closing quote found. */
  lemma MatchAnnouncementAt(s: string, v: Verb, j: nat)
    requires |s| >= HeadLength(v) && IsLevel(s[5]) && s[..HeadLength(v)] == Head(s[5], v)
    requires FirstIndex(s[HeadLength(v)..], '\'') == Some(j) && j > 0
    ensures MatchAnnouncement(s, v) == Some(s[HeadLength(v)..HeadLength(v) + j])
  {
  }

  /** The first quote after a quote-free path is the one that closes it. */
  lemma FirstQuoteAfter(path: string, rest: string)
    requires '\'' !in path
    ensures FirstIndex(path + "'" + rest, '\'') == Some(|path|)
    ensures (path + "'" + rest)[..|path|] == path
  {
    var w := path + "'" + rest;
    assert w[|path|] == '\'';
    assert w[..|path|] == path;
  }

  /** No line announces both entering and leaving: the two verbs differ in their first letter. */
  lemma VerbsExclusive(s: string)
    ensures MatchAnnouncement(s, Entering).Some? ==> MatchAnnouncement(s, Leaving).None?
  {
    if MatchAnnouncement(s, Entering).Some? {
      var e := Head(s[5], Entering);
      assert s[..|e|] == e;
      assert e[9] == 'E';
      assert s[9] == 'E';
      assert Head(s[5], Leaving)[9] == 'L';
    }
  }

  /** The three diagnostic kinds the pattern recognises. */
  datatype Severity = Error | Warning | Note

  /** The keyword a severity is printed as. */
  function Keyword(sev: Severity): string {
    match sev
    case Error => "error"
    case Warning => "warning"
    case Note => "note"
  }

  /**
   * A compiler diagnostic as the pattern sees it: `<file>:<line>:<column>: <kind>:<message>`.
   * `message` is whatever follows the kind's colon.
   */
  datatype Diagnostic = Diagnostic(file: string, line: string, column: string, severity: Severity, message: string)

  /**
   * What the pattern accepts: a file name whose first character is not `/` and which
   * holds no `:` after that first character, at least two characters long (`[^/][^:]+`),
   * and decimal line and column numbers.
   */
  predicate WellFormed(d: Diagnostic) {
    |d.file| >= 2 && d.file[0] != '/' && ':' !in d.file[1..]
    && IsNumeral(d.line) && IsNumeral(d.column)
  }

  /** The line a diagnostic is printed as. */
  function Render(d: Diagnostic): string {
    d.file + ":" + d.line + ":" + d.column + ": " + Keyword(d.severity) + ":" + d.message
  }

  /**
   * `^[^/][^:]+:`: the file name and what follows its colon. `[^:]+` cannot step over
   * a colon, so the name ends at the first `:` after the first character, which must
   * leave at least one character for `[^:]+`.
   */
  function SplitFile(s: string): (r: Option<(string, string)>)
    ensures r.Some? ==> |r.value.0| >= 2 && r.value.0[0] != '/' && ':' !in r.value.0[1..]
    ensures r.Some? ==> s == r.value.0 + ":" + r.value.1
  {
    if |s| == 0 || s[0] == '/' then None
    else
      match FirstIndex(s[1..], ':')
      case None => None
      case Some(j) =>
        if j == 0 then None
        else
          assert s[1..][..j] == s[1..j + 1];
          assert s == s[..j + 1] + ":" + s[j + 2..];
          Some((s[..j + 1], s[j + 2..]))
  }

  /** `[0-9]+`, greedy: the leading numeral and what follows it. */
  function TakeNumeral(t: string): (r: Option<(string, string)>)
    ensures r.Some? ==> IsNumeral(r.value.0) && t == r.value.0 + r.value.1
    ensures r.Some? ==> r.value.1 == [] || !IsDigit(r.value.1[0])
    ensures r.None? ==> t == [] || !IsDigit(t[0])
  {
    var a := DigitRun(t);
    if a == 0 then None
    else
      assert t == t[..a] + t[a..];
      Some((t[..a], t[a..]))
  }

  /** `: (error|warning|note):`: the severity and the message after its colon. */
  function TakeSeverity(v: string): (r: Option<(Severity, string)>)
    ensures r.Some? ==> v == ": " + Keyword(r.value.0) + ":" + r.value.1
  {
    if |v| >= 8 && v[..8] == ": error:" then
      assert v == v[..8] + v[8..];
      Some((Error, v[8..]))
    else if |v| >= 10 && v[..10] == ": warning:" then
      assert v == v[..10] + v[10..];
      Some((Warning, v[10..]))
    else if |v| >= 7 && v[..7] == ": note:" then
      assert v == v[..7] + v[7..];
      Some((Note, v[7..]))
    else None
  }

  /**
   * The diagnostic pattern, with its parts taken apart: the file name, `:`, the line
   * number, `:`, the column number, `: `, the kind and `:`; the message is the rest.
   */
  function ParseDiagnostic(s: string): Option<Diagnostic> {
    match SplitFile(s)
    case None => None
    case Some((file, t)) =>
      match TakeNumeral(t)
      case None => None
      case Some((line, t2)) =>
        if t2 == [] || t2[0] != ':' then None
        else
          match TakeNumeral(t2[1..])
          case None => None
          case Some((column, v)) =>
            match TakeSeverity(v)
            case None => None
            case Some((severity, message)) => Some(Diagnostic(file, line, column, severity, message))
  }

  /** The diagnostic regex matches `s`. */
  predicate IsDiagnostic(s: string) {
    ParseDiagnostic(s).Some?
  }

  /** Whatever the pattern accepts is a well-formed diagnostic printed in full. */
  lemma ParseDiagnosticSound(s: string)
    requires IsDiagnostic(s)
    ensures WellFormed(ParseDiagnostic(s).value) && Render(ParseDiagnostic(s).value) == s
  {
    var (file, t) := SplitFile(s).value;
    var (line, t2) := TakeNumeral(t).value;
    var (column, v) := TakeNumeral(t2[1..]).value;
    var (severity, message) := TakeSeverity(v).value;
    var d := Diagnostic(file, line, column, severity, message);
    ParseDiagnosticAt(s, d, t, t2, v);
    assert t2 == ":" + t2[1..] by {
      assert t2[0] == ':';
    }
    RenderParts(d, s, t, t2, v);
  }

  /** Reassembling the parts the parser split off gives back the line. */
  lemma RenderParts(d: Diagnostic, s: string, t: string, t2: string, v: string)
    requires s == d.file + ":" + t && t == d.line + t2 && t2 == ":" + (d.column + v)
    requires v == ": " + Keyword(d.severity) + ":" + d.message
    ensures Render(d) == s
  {
  }

  /** `file:` ahead of anything splits back into `file` and that thing. */
  lemma SplitFileOf(file: string, rest: string)
    requires |file| >= 2 && file[0] != '/' && ':' !in file[1..]
    ensures SplitFile(file + ":" + rest) == Some((file, rest))
  {
    var s := file + ":" + rest;
    var w := file[1..] + ":" + rest;
    assert s[1..] == w;
    assert w[|file| - 1] == ':' && w[..|file| - 1] == file[1..];
    assert FirstIndex(s[1..], ':') == Some(|file| - 1);
    assert s[..|file|] == file && s[|file| + 1..] == rest;
  }

  /** A numeral ahead of a non-digit is taken whole. */
  lemma TakeNumeralOf(num: string, rest: string)
    requires IsNumeral(num) && (rest == [] || !IsDigit(rest[0]))
    ensures TakeNumeral(num + rest) == Some((num, rest))
  {
    DigitRunOfNumeral(num, rest);
    assert (num + rest)[..|num|] == num && (num + rest)[|num|..] == rest;
  }

  /** A printed kind is read back as that kind, whatever message follows. */
  lemma TakeSeverityOf(sev: Severity, message: string)
    ensures TakeSeverity(": " + Keyword(sev) + ":" + message) == Some((sev, message))
  {
    var v := ": " + Keyword(sev) + ":" + message;
    var n := |Keyword(sev)| + 3;
    assert v[..n] == ": " + Keyword(sev) + ":" && v[n..] == message;
    match sev
    case Error =>
    case Warning => assert v[2] == 'w';
    case Note => assert v[2] == 'n';
  }

  /** Every well-formed diagnostic line matches, and is taken apart into the same parts. */
  lemma ParseDiagnosticComplete(d: Diagnostic)
    requires WellFormed(d)
    ensures ParseDiagnostic(Render(d)) == Some(d)
  {
    var v := ": " + Keyword(d.severity) + ":" + d.message;
    var t2 := ":" + (d.column + v);
    var t := d.line + t2;
    RenderSplit(d, v, t2, t);
    SplitFileOf(d.file, t);
    TakeNumeralOf(d.line, t2);
    TakeNumeralOf(d.column, v);
    TakeSeverityOf(d.severity, d.message);
    ParseDiagnosticAt(Render(d), d, t, t2, v);
  }

  /** A printed diagnostic, cut where the parser cuts it. */
  lemma RenderSplit(d: Diagnostic, v: string, t2: string, t: string)
    requires v == ": " + Keyword(d.severity) + ":" + d.message
    requires t2 == ":" + (d.column + v) && t == d.line + t2
    ensures Render(d) == d.file + ":" + t && t2[1..] == d.column + v
  {
  }

  /** The parser's verdict once each of its steps is known to succeed. */
  lemma ParseDiagnosticAt(s: string, d: Diagnostic, t: string, t2: string, v: string)
    requires SplitFile(s) == Some((d.file, t)) && TakeNumeral(t) == Some((d.line, t2))
    requires t2 != [] && t2[0] == ':' && TakeNumeral(t2[1..]) == Some((d.column, v))
    requires TakeSeverity(v) == Some((d.severity, d.message))
    ensures ParseDiagnostic(s) == Some(d)
  {
  }

  /**
   * An announcement line is never a diagnostic: its first colon after the first
   * character is followed by a space, where the pattern wants a line number.
   */
  lemma AnnouncementNotDiagnostic(s: string, v: Verb)
    ensures MatchAnnouncement(s, v).Some? ==> !IsDiagnostic(s)
  {
    if MatchAnnouncement(s, v).Some? {
      var h := Head(s[5], v);
      assert s[..|h|] == h;
      HeadShape(s[5], v);
      assert s[1..7] == s[..|h|][1..7];
      assert s[7] == h[7] && s[8] == h[8];
      NotDiagnosticAt(s, 6);
    }
  }

  /** Announcements begin with `m`, diagnostics never with `/`. */
  lemma FirstCharacters(s: string, v: Verb)
    ensures MatchAnnouncement(s, v).Some? ==> |s| > 0 && s[0] == 'm'
    ensures IsDiagnostic(s) ==> |s| > 0 && s[0] != '/'
  {
    if MatchAnnouncement(s, v).Some? {
      assert s[..HeadLength(v)] == Head(s[5], v);
      assert s[0] == Head(s[5], v)[0];
    }
  }

  /** An announcement ends in its closing quote, which trimming leaves alone. */
  lemma AnnouncementEndsClean(level: char, v: Verb, path: string)
    ensures Announcement(level, v, path) != [] && EndsClean(Announcement(level, v, path))
  {
    var a := Announcement(level, v, path);
    assert a[|a| - 1] == '\'';
  }

  /** The punctuation an announcement head begins with: `make[<level>]: `. */
  lemma HeadShape(level: char, v: Verb)
    requires IsLevel(level)
    ensures |Head(level, v)| == HeadLength(v) && Head(level, v)[5] == level
    ensures Head(level, v)[7] == ':' && Head(level, v)[8] == ' '
    ensures ':' !in Head(level, v)[1..7] && Head(level, v)[|Head(level, v)| - 1] == '\''
  {
    var h := Head(level, v);
    assert h[1..7] == "ake[" + [level] + "]";
  }

  /** A line whose sixth character is no level, or whose seventh is not `]`, announces nothing. */
  lemma NotAnnouncementAt(s: string, v: Verb)
    requires |s| > 6 && (!IsLevel(s[5]) || s[6] != ']')
    ensures MatchAnnouncement(s, v).None?
  {
    if IsLevel(s[5]) && |s| >= HeadLength(v) {
      assert Head(s[5], v)[6] == ']';
      assert s[..HeadLength(v)][6] == s[6];
    }
  }

  /** A head with no closing quote after it announces nothing, for either verb. */
  lemma UnclosedNotAnnouncement(level: char, v: Verb, text: string, w: Verb)
    requires IsLevel(level) && '\'' !in text
    ensures MatchAnnouncement(Head(level, v) + text, w).None?
  {
    var h := Head(level, v);
    var s := h + text;
    HeadShape(level, v);
    SliceOfConcat(h, text, 0);
    assert s[5] == level;
    if w == v {
      assert s[HeadLength(v)..] == text;
    } else {
      assert s[9] == h[9];
      if |s| >= HeadLength(w) {
        assert s[..HeadLength(w)][9] == s[9];
        assert Head(level, w)[9] != h[9];
      }
    }
  }

  /**
   * A line whose first colon after the first character is not followed by a digit
   * (the line ends there, or another character follows) is no diagnostic.
   */
  lemma NotDiagnosticAt(s: string, j: nat)
    requires j + 1 < |s| && s[j + 1] == ':' && ':' !in s[1..j + 1] && (j + 2 == |s| || !IsDigit(s[j + 2]))
    ensures !IsDiagnostic(s)
  {
    assert s[1..][j] == ':' && s[1..][..j] == s[1..j + 1];
    assert FirstIndex(s[1..], ':') == Some(j);
    if j + 2 < |s| {
      assert s[j + 2..][0] == s[j + 2];
    }
  }
}
