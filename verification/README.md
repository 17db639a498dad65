# absmake line processor, in Dafny

absmake runs `make` and rewrites its output. It makes the relative file names in
compiler diagnostics absolute, using the directory make last announced. The part
that does the work is `LineProcessor` in `src/main.rs`. It is a small state machine
with one field, the current directory. It reads one line of make output at a time,
trims the line's trailing whitespace, and classifies it. The checks run in this
order, and the first match wins:

1. An enter announcement (`make[N]: Entering directory '…'`). The quoted path
   becomes the current directory, and the line is printed.
2. A leave announcement (`make[N]: Leaving directory '…'`).
   - If it names the current directory, the current directory becomes that path's
     parent, and the line is printed.
   - If the path has no parent, the program panics.
   - If the announcement names any other directory, nothing changes and nothing is
     printed.
3. A compiler diagnostic (`file:line:col: error|warning|note:…`). It is printed with
   the current directory and `/` in front.
4. Anything else is printed trimmed.

The model has five modules:

- `Wrappers`: `Option`, and `Result` with a `Panic` case for the fatal `expect`.
- `Text`: `trim_end` over the Unicode White_Space characters, plus the character
  and digit searches the matchers need.
- `Paths`: `Path::parent` on `/`-separated paths.
- `Patterns`: the three regular expressions, written as matchers over strings,
  with soundness and completeness lemmas.
- `Processor`:
  - the specification function `Step`;
  - the class `LineProcessor`, whose `ProcessLine` updates `currentDir` in place
    and is proved against `Step`;
  - the read loop of `main` as `Filter`, proved against the fold `Run`;
  - the per-line and whole-run properties;
  - the walk that the unit test `interpret_line` takes.

A leave line naming a directory other than the current one falls out of the
if/else-if chain at `src/main.rs:40-48` and reaches `None` at `src/main.rs:58`, so
the line is dropped (see `StepLeaveOther`, `StepFrame`).

## Model

| member | source | states |
|---|---|---|
| Text.IsWhitespace | src/main.rs:34 | The characters `trim_end` removes: those with the Unicode White_Space property. They are tab to carriage return, space, U+0085, U+00A0, U+1680, U+2000 to U+200A, U+2028, U+2029, U+202F, U+205F and U+3000. |
| Text.TrimEnd | src/main.rs:34 | `trim_end` returns a prefix of the line. Everything it removes is whitespace, and what is left does not end in whitespace. |
| Text.TrimEndIdempotent | src/main.rs:34 | Trimming an already trimmed line changes nothing. |
| Text.TrimEndAppend | src/main.rs:34 | Trimming never reaches back past a non-whitespace character: `trim_end(s + t) == s + trim_end(t)` when `s` ends clean. |
| Paths.Parent | src/main.rs:43-45 | `Path::parent` on the path string. Trailing separators are ignored, and nothing but separators gives `None`. Otherwise the path is cut before its last component, and the separators before that component are dropped. One relative component gives the empty path, and a component under the root gives `/`. |
| Paths.ParentNone | src/main.rs:43-44 | `parent()` is `None`, so the `expect` panics, exactly when the path consists only of separators (the root, or empty). |
| Paths.ParentOfJoin | src/main.rs:43-45 | The parent of `dir/seg` is `dir`, for every single component `seg`: `/a/b/c` gives `/a/b`, `/a` gives `/`, and `foo` gives the empty path. |
| Paths.ParentSplit | src/main.rs:43-45 | A parent is a proper prefix of the path. It is cut just before the last component: the cut falls on a separator (unless the parent is empty or the root), and only separators surround that component. An absolute path has a non-empty, absolute parent. The parent of a relative path is relative or empty. |
| Patterns.MatchAnnouncement | src/main.rs:25-26 | A match captures a non-empty, quote-free path, and the level is a digit from 1 to 9. |
| Patterns.MatchAnnouncementSound | src/main.rs:25-26 | A line the pattern accepts begins with the announcement of the path it captured. |
| Patterns.MatchAnnouncementOf | src/main.rs:25-26 | Every announcement with a valid level and path matches, whatever follows it, and yields exactly that path. |
| Patterns.VerbsExclusive | src/main.rs:25-26 | No line matches both the enter pattern and the leave pattern. |
| Patterns.NotAnnouncementAt | src/main.rs:25-26 | A level other than one digit from 1 to 9 (`make[0]`, `make[12]`) matches neither announcement pattern. |
| Patterns.UnclosedNotAnnouncement | src/main.rs:25-26 | An announcement head whose quote is never closed matches neither pattern. |
| Patterns.SplitFile | src/main.rs:27 | `[^/][^:]+:` takes a file name of two or more characters that does not start with `/` and has no `:` after its first character. The name is followed by a colon. |
| Patterns.TakeNumeral | src/main.rs:27 | `[0-9]+` takes the longest leading run of digits, which must be non-empty. |
| Patterns.TakeSeverity | src/main.rs:27 | `: (error\|warning\|note):` reads a kind and leaves the message after its colon. |
| Patterns.ParseDiagnostic | src/main.rs:27 | The diagnostic pattern read left to right: file name, line number, column number, then the kind. The message is the rest of the line. `None` when any part fails. |
| Patterns.IsDiagnostic | src/main.rs:27 | `error_re.is_match`: the pattern accepts a prefix of the line. |
| Patterns.ParseDiagnosticSound | src/main.rs:27 | Whatever the diagnostic pattern accepts is a well-formed diagnostic printed in full. |
| Patterns.ParseDiagnosticComplete | src/main.rs:27 | Every well-formed diagnostic matches and is read back into the same parts. |
| Patterns.NotDiagnosticAt | src/main.rs:27 | The pattern rejects a line when the first colon after the first character is not followed by a digit: the line ends at that colon, or a non-digit follows it. |
| Patterns.AnnouncementNotDiagnostic | src/main.rs:25-27 | No announcement matches the diagnostic pattern. |
| Patterns.FirstCharacters | src/main.rs:25-27 | Announcements start with `m`, and diagnostics never start with `/`. |
| Processor.Step | src/main.rs:32-59 | One call of `process_line`, on the current directory and the line. The line is trimmed and tried against the enter pattern, the leave pattern and the diagnostic pattern, in that order. The result is the new directory and the line to print, if any. It is a panic when the directory being left has no parent. |
| Processor.Annotate | src/main.rs:50-55 | The last two branches: a diagnostic is printed as the current directory, `/`, and the trimmed line. Any other line is printed trimmed. |
| Processor.LineProcessor.constructor | src/main.rs:22-24 | A new processor has an empty current directory. |
| Processor.LineProcessor.ProcessLine | src/main.rs:32-59 | The result and the new `currentDir` are those of `Step` on the old directory and the line. On a panic, the directory is unchanged. |
| Processor.LineProcessor.PrintLine | src/main.rs:62-66 | Prints no line or one line, namely the output of `process_line`, with the same state change. |
| Processor.Filter | src/main.rs:86-94 | A fresh processor fed the lines in order prints exactly what `Run("", lines)` prints, stopping at the first panic. |
| Processor.StepEnter | src/main.rs:35-37 | An enter line makes the quoted path the current directory, whatever the current directory was, and prints the trimmed line. |
| Processor.StepLeaveCurrent | src/main.rs:40-46 | A leave of the current directory moves to its parent and prints the trimmed line. It panics exactly when the directory consists only of separators. The new directory is a proper prefix of the old one, cut at a separator before its last component (unless it is empty or the root), with only separators around that component. |
| Processor.StepLeaveJoined | src/main.rs:40-46 | Leaving `parent/seg` while it is the current directory returns to `parent`. |
| Processor.StepLeaveOther | src/main.rs:40-58 | A leave line naming another directory keeps the directory and prints nothing. |
| Processor.StepDiagnostic | src/main.rs:50-51 | A well-formed diagnostic keeps the directory and is printed as `dir + "/" + trimmed line`. |
| Processor.DiagnosticLine | src/main.rs:50-51 | A diagnostic line without trailing whitespace is printed after `dir/`, and the directory is unchanged. |
| Processor.StepAbsolute | src/main.rs:53-55 | A line starting with `/` passes through trimmed, because the diagnostic pattern's `[^/]` rejects it. The directory is unchanged. |
| Processor.StepBadLevel | src/main.rs:53-55 | An announcement at level `0` or with a multi-digit level passes through trimmed. The directory is unchanged. |
| Processor.StepUnclosedQuote | src/main.rs:53-55 | An announcement whose quote is never closed passes through trimmed. The directory is unchanged. |
| Processor.StepFrame | src/main.rs:32-59 | Only enter lines and leave lines naming the current directory change it. Only a leave line naming another directory prints nothing. Only leaving a directory made of separators panics. |
| Processor.RunWith | src/main.rs:88-94 | The read loop as a fold over the lines, for any step. Each line goes through the step in order, and the printed lines are collected in order. The run stops at the first panic, in the directory it had then. |
| Processor.Run | src/main.rs:88-94 | The fold with `Step`: what `main`'s loop prints, starting from a processor whose directory is `dir`. |
| Processor.RunQuiet | src/main.rs:88-94 | If every line keeps the directory and prints one line, the run prints exactly those lines, in order. |
| Processor.RunWithoutAnnouncements | src/main.rs:88-94 | Output with no announcements keeps the directory and never panics. It prints one line per input line, in order: trimmed, and with `dir/` in front for diagnostics. |
| Processor.AnnotatedIsStable | src/main.rs:50-55 | A line that is not an announcement, printed in a directory that is empty or absolute, is printed unchanged when read again, in any directory. |
| Processor.RunIdempotent | src/main.rs:88-94 | Feeding a run's output back through a processor reproduces it when the run saw no announcements and its directory was empty or absolute. |
| Processor.RunBracket | src/main.rs:88-94 | An enter line and the matching leave line around output without announcements. Each diagnostic in between is printed with the entered directory and `/` in front. Every other line in between is printed trimmed. The run ends in the parent. |
| Processor.RunAppend | src/main.rs:88-94 | Running two stretches of output in turn is the same as running them together, so output keeps the input order. |
| Processor.RunPrintsAtMostOnePerLine | src/main.rs:88-94 | A run prints at most as many lines as it reads. |
| Processor.InterpretLine | src/main.rs:108-135 | The unit test's walk. The directories after construction and after each of the first four lines are `""`, `""`, `/home/me/source/main`, `/home/me/source`, `/home/me/source`. The diagnostic becomes `/home/me/source/ui/mainform.cpp:32:5: error: syntax error`. |
| Processor.RandomLine | src/main.rs:113-114 | `random line` passes through unchanged, and the directory is unchanged. |
| Processor.EnterMain | src/main.rs:117-119 | The test's enter line sets the directory to `/home/me/source/main`. |
| Processor.LeaveMain | src/main.rs:122-124 | The test's leave line moves from `/home/me/source/main` to `/home/me/source`. |
| Processor.LeaveUnclosed | src/main.rs:126-129 | The test's leave line with no closing quote is no leave announcement. It passes through, and the directory is unchanged. |

## Left out

- `main`'s process handling (`src/main.rs:69-84`, `96-101`) is I/O around the processor and is not modelled. This covers spawning `sh -c "make … 2>&1"`, piping stdout, waiting for the child, and `anyhow` error propagation.
- Processor.Filter: the lines are given as a sequence. A read error, which `read_line(…)?` propagates, is not modelled.
- Processor.Filter: lines are passed as read. A trailing newline, if present, is removed by the trimming.
- Exit-code propagation is not modelled, because the code does not do it either.
- Processor.LineProcessor.PrintLine returns the lines it would print instead of calling `println!`.
- The `regex` crate is not modelled. Only the three fixed patterns are, as hand-written matchers in `Patterns`. Compiling them (`Regex::new(…).unwrap()`, `src/main.rs:25-27`) cannot fail for these fixed patterns. So they are functions rather than fields of the class, which never change them.
- Paths.Parent: does not model `.` components or paths that are not valid UTF-8 (`to_str().unwrap()`). It does handle trailing and repeated separators as `Path::parent` does.
- The panic of `expect("failed to identify parent path")` is modelled as a `Panic` result that ends the run. Unwinding and the process exit status are not modelled.
