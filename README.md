# Playwright homework auto-check, modelled in Dafny

The repository grades a student's Playwright homework. The homework is a
folder `you_playwright/` with four scripts:

- `run_chromium.py`, `run_firefox.py` and `run_webkit.py` each launch one browser;
- `info_headless.py` prints the user agent, viewport and URL of a headless page.

The checking code never runs the student's code. It has four parts, and this
project models all four:

- `tests/test_syntax.py` (module `SyntaxChecks`): pytest tests that check
  each script statically. They use the parsed syntax tree and regular
  expressions over the source text, and report the first failing assertion.
- `tools/check_linters.py` (module `CheckLinters`): scores the flake8 and
  pylint output.
  - flake8 loses one point per two findings; pylint loses one point per
    critical finding.
  - It writes the two scores, their total and up to three findings per tool
    into `linters_result.json`.
  - It exits with 0 when the total reaches 12 out of 20.
- `tools/generate_summary.py` (module `GenerateSummary`): builds the
  percentage report.
  - It adds the pytest scores to the linter total, capped at 15.
  - It rounds the result to a percentage with one decimal and passes the
    work at or above the configured passing score.
  - It labels each task and lists recommendations.
- `tools/generate_summary_1.py` (module `StructureSummary`): builds the
  structure report.
  - It probes for the four scripts and, when all are present and a linter
    record was found, lists the linter findings (25 at most per tool). That
    section raises when a tool failed.
  - It ends in a three-way verdict and exits with 0 exactly when the folder
    and all four scripts exist.

Two shared modules support them:

- `Text` holds the string operations: ASCII case folding, Python's
  whitespace class, substring search, `str.strip`, `str.splitlines` and
  list filtering.
- `Wrappers` holds `Option` and `Result`.

How the regular expressions are modelled:

- Each one becomes a declarative ghost predicate, written as "there are
  positions where the pieces of the pattern match".
- A compiled scanner tries every start position.
- Separate soundness and completeness lemmas prove that the scanner decides
  exactly the predicate.

The model follows the code at these points where the code's behaviour is easy
to misread:

- `parse_python_file` calls `pytest.fail` when a file is missing, unreadable
  or has a syntax error. That aborts the whole test, so no text check runs
  on such a file. This includes `test_headless_outputs`, which only reads
  the text.
- `round` in Python rounds an exact half to the even neighbour. The
  percentage is therefore rounded half-to-even, not half away from zero.
- pylint is run with `--output-format=text`. Its lines then begin with the
  file path (`you_playwright/run_chromium.py:3:0: E0401: ...`), not with
  `E:`. The `E:`/`F:` filter is modelled as written, and
  `CheckLinters.PathLinesNotCritical` shows that no line starting with the
  path is counted.
- In `generate_summary_1.py` the linter section expects every field of a
  full record, with numeric error counts. Two records that
  `check_linters.py` can write make it raise instead:
  - After a tool failed, the error count is the text `ошибка: ...`, and
    `'...' > 0` raises `TypeError`.
  - The fallback record, written when `main` itself failed and the
    handler completed, has no `flake8_errors` key, which raises `KeyError`.
  
  In both cases no report is written and the exit status is 1. The model
  returns these as `Err` values (`StructureSummary.SectionCrashesOnToolFailure`).
- `check_linters.py` keeps at most three findings per tool. The 25-entry
  truncation and the "... N more" line of the structure report are modelled
  as written, but they never take effect on those records
  (`StructureSummary.LintersListingsNeverTruncate`).

## Model

| member | source | states |
|---|---|---|
| `SyntaxChecks.HasSyncPlaywrightImport` | tests/test_syntax.py:22-28 | true iff some walked node is a `from playwright.sync_api import` whose aliases include the original name `sync_playwright`; the `as` name does not matter and a plain `import` never qualifies |
| `SyntaxChecks.ImportsName` | tests/test_syntax.py:26 | true iff some alias has the given original name |
| `SyntaxChecks.HasBrowserLaunch` | tests/test_syntax.py:30-34 | true iff `p.<browser>.launch(` occurs at some position of the code |
| `SyntaxChecks.LaunchSurvivesContext` | tests/test_syntax.py:33-34 | a code that passes the launch check still passes with any text written before and after it |
| `SyntaxChecks.PrintTitleAtSound` | tests/test_syntax.py:39 | a start where the scanner succeeds is a match of `print\s*\([^)]*title\(\)` |
| `SyntaxChecks.PrintTitleAtComplete` | tests/test_syntax.py:39 | every match of the pattern is found by the scanner at its start |
| `SyntaxChecks.HasPrintTitle` | tests/test_syntax.py:36-39 | true iff the lower-cased code has `print`, optional whitespace, `(`, a run free of `)`, then `title()` |
| `SyntaxChecks.HeadlessAtSound` | tests/test_syntax.py:44 | a start where the scanner succeeds is a match of `headless\s*=\s*True` |
| `SyntaxChecks.HeadlessAtComplete` | tests/test_syntax.py:44 | every match of that pattern is found by the scanner |
| `SyntaxChecks.HasHeadlessMode` | tests/test_syntax.py:41-44 | true iff `headless`, optional whitespace, `=`, optional whitespace and `True` occur in sequence, case-sensitively |
| `SyntaxChecks.HeadlessNeedsCapitalTrue` | tests/test_syntax.py:44 | a code passing the headless check contains `True` with a capital T, so `headless=true` alone fails |
| `SyntaxChecks.UserAgentAtSound` | tests/test_syntax.py:48 | a scanner hit is a match of the user-agent pattern (`print` or `user-agent`, then on the same line `user`, at most one character, `agent`) on the lower-cased code |
| `SyntaxChecks.UserAgentAtComplete` | tests/test_syntax.py:48 | every match of that pattern is found by the scanner |
| `SyntaxChecks.HasUserAgentOutput` | tests/test_syntax.py:48-49 | true iff the lower-cased code has `print` or `user-agent` followed on the same line by `user`, at most one character, `agent`, or the code contains `navigator.userAgent` |
| `SyntaxChecks.WordThenOnLine` | tests/test_syntax.py:50 | true iff the first word occurs and the second occurs later without a line feed in between (`.*`) |
| `SyntaxChecks.HasViewportOutput` | tests/test_syntax.py:50 | true iff the lower-cased code contains `viewport` or `size`, or has `width` and `height` on one line in either order |
| `SyntaxChecks.HasUrlOutput` | tests/test_syntax.py:51 | true iff the lower-cased code contains `url` or `page.url`, which is the same as containing `url` |
| `SyntaxChecks.HasRequiredOutputs` | tests/test_syntax.py:46-52 | the triple (user agent, viewport, URL), each part decided by its own check alone |
| `SyntaxChecks.FirstFailure` | tests/test_syntax.py:59-61 | a sequence of assertions passes iff every check holds; otherwise it fails with the message of the first check that does not hold |
| `SyntaxChecks.LoadFailure` | tests/test_syntax.py:15-20 | a file that does not load fails with a message naming it: a missing file gives "not found", a syntax error gives its message and line, any other read error gives its message |
| `SyntaxChecks.TestChromiumSyntax` | tests/test_syntax.py:56-61 | a file that does not load fails with its load error; otherwise the first failing check among import, chromium launch and title print, in that order |
| `SyntaxChecks.TestFirefoxSyntax` | tests/test_syntax.py:63-67 | load error, else the first failing check among import and firefox launch; no title print is required |
| `SyntaxChecks.TestWebkitSyntax` | tests/test_syntax.py:69-73 | load error, else the first failing check among import and webkit launch |
| `SyntaxChecks.TestHeadlessSyntax` | tests/test_syntax.py:77-81 | load error, else the first failing check among import and `headless=True` |
| `SyntaxChecks.TestHeadlessOutputs` | tests/test_syntax.py:83-90 | load error even though only the text is used, else the first missing output among user agent, viewport, URL |
| `Text.Lower` | tests/test_syntax.py:39 | same length, and every character is its ASCII lower-case counterpart |
| `Text.Contains` | tests/test_syntax.py:34 | true iff the literal occurs at some position |
| `Text.SkipSpaces` | tests/test_syntax.py:44 | stops at the end of the maximal whitespace run from the start, as a greedy `\s*` does |
| `Text.Strip` | tools/check_linters.py:23 | the result is a slice of the input with only whitespace cut away before and after it, and begins and ends with non-whitespace |
| `Text.SplitLines` | tools/check_linters.py:23 | no lines for the empty text, and no line contains a line feed |
| `Text.SplitLinesRoundTrip` | tools/check_linters.py:23 | the lines, each followed by a line feed, give back the text, plus a line feed when it lacked a final one |
| `Text.Filter` | tools/check_linters.py:23 | the kept lines are exactly the input lines that satisfy the condition, never more lines than the input |
| `Text.FilterCounts` | tools/check_linters.py:37-38 | each kept line appears as often as in the input and each dropped line not at all |
| `Text.FilterAppend` | tools/check_linters.py:37-38 | filtering distributes over concatenation, so order is preserved |
| `Text.Take` | tools/check_linters.py:26 | `s[:n]`: a prefix of length `min(n, len(s))` |
| `CheckLinters.LinterScore` | tools/check_linters.py:25 | `max(0, 10 - n // d)` lies in [0, 10], is 10 iff `n < d` and 0 iff `n >= 10*d` |
| `CheckLinters.LinterScoreMonotone` | tools/check_linters.py:25 | more errors never raise the score |
| `CheckLinters.LinterScoreStep` | tools/check_linters.py:25 | `d` more errors cost exactly one point until the score reaches zero |
| `CheckLinters.Flake8Score` | tools/check_linters.py:25 | the flake8 score lies in [0, 10] and is 0 iff there are at least 20 findings |
| `CheckLinters.Flake8SevenFindings` | tools/check_linters.py:25 | seven flake8 findings leave 7 points |
| `CheckLinters.PylintScore` | tools/check_linters.py:40 | the pylint score lies in [0, 10], is 10 iff there are no critical findings and 0 iff there are at least 10 |
| `CheckLinters.IsCritical` | tools/check_linters.py:38 | true iff the line has at least two characters, the first `E` or `F` and the second `:` |
| `CheckLinters.Flake8Findings` | tools/check_linters.py:23 | exactly the non-empty lines of the stripped output, never more than it has lines |
| `CheckLinters.PylintFindings` | tools/check_linters.py:37-38 | exactly the lines of the stripped output that begin with `E:` or `F:`, never more than it has lines |
| `CheckLinters.RunFlake8` | tools/check_linters.py:15-26 | the count is the number of non-empty lines of the stripped output, the score follows from it, the details are its first three lines |
| `CheckLinters.RunPylint` | tools/check_linters.py:28-41 | the count is the number of lines beginning with `E:` or `F:`, the score follows from it, the details are the first three such lines |
| `CheckLinters.Flake8CountsNonEmptyLines` | tools/check_linters.py:23 | every non-empty line counts as often as it occurs, and no empty line counts |
| `CheckLinters.PylintCountsCriticalLines` | tools/check_linters.py:37-38 | exactly the `E:`/`F:` lines count, each as often as it occurs |
| `CheckLinters.PathLinesNotCritical` | tools/check_linters.py:31-38 | a line beginning with the `you_playwright/` path is never counted, whatever message code it carries |
| `CheckLinters.Flake8Result` | tools/check_linters.py:44-48 | a completed run gives exactly `run_flake8` of its output; a run that raised gives score 0, the error text `ошибка: ` followed by the message, and no details; the score lies in [0, 10] with at most three details |
| `CheckLinters.PylintResult` | tools/check_linters.py:50-54 | a completed run gives exactly `run_pylint` of its output; a run that raised gives score 0, the error text `ошибка: ` followed by the message, and no details; the score lies in [0, 10] with at most three details |
| `CheckLinters.MainResult` | tools/check_linters.py:43-73 | a full record whose total is the sum of the scores and lies in [0, 20]; exit 0 iff the total is at least 12; per tool, a completed run records the score, count and first three of its findings, and a run that raised records score 0, the error text and no details |
| `CheckLinters.ToolFailuresAreIndependent` | tools/check_linters.py:44-54 | changing how one tool's run ends leaves the other tool's half of the record unchanged |
| `CheckLinters.CleanRunsScoreTwenty` | tools/check_linters.py:56-73 | two runs with no output score 20 and exit 0 |
| `CheckLinters.Entry` | tools/check_linters.py:75-82 | an exception in `main`, with a handler that completes, leaves the fallback record with total 0 and exit 1; otherwise the result of `main`; exit 0 iff `main` returned and the total is at least 12 |
| `GenerateSummary.LoadTasks` | tools/generate_summary.py:8-17 | a missing configuration gives maximum 100 and passing score 70; a present one is used as is |
| `GenerateSummary.LoadLinterResults` | tools/generate_summary.py:19-24 | a missing record reads as total 0 with both scores 0 |
| `GenerateSummary.Get` | tools/generate_summary.py:45-50 | `dict.get(key, 0)`: the stored score when the key is present, 0 otherwise |
| `GenerateSummary.FixedPytestScores` | tools/generate_summary.py:30-36 | the fixed table has exactly the five pytest task names as keys, and its scores add up to 80 |
| `GenerateSummary.LinterContribution` | tools/generate_summary.py:50 | `min(total, 15)`: never above 15, and equal to the total iff the total is at most 15 |
| `GenerateSummary.CollectScores` | tools/generate_summary.py:44-53 | the sum of the scores is the five pytest entries (0 when absent) plus the capped linter total |
| `GenerateSummary.RoundPositive` | tools/generate_summary.py:55 | the nearest integer to `n / d`, with an exact half going to the even neighbour |
| `GenerateSummary.RoundHalfEven` | tools/generate_summary.py:55 | the nearest integer to `a / b` for either sign of `b`, with an exact half going to the even neighbour |
| `GenerateSummary.PercentTenths` | tools/generate_summary.py:55 | the percentage in tenths is within half a tenth of `1000 * total / max`, and an exact tie goes to the even neighbour |
| `GenerateSummary.Evaluate` | tools/generate_summary.py:38-70 | raises exactly when the maximum is 0; otherwise the total is the sum of the six scores, the percentage is the rounded ratio, and the work passes iff the percentage is at least the passing score |
| `GenerateSummary.PassingScoreIsInclusive` | tools/generate_summary.py:70 | a percentage equal to the passing score passes |
| `GenerateSummary.DefaultsAlwaysPass` | tools/generate_summary.py:30-70 | with the default configuration, the fixed pytest table and a non-negative linter total, the percentage equals the total, lies between 80 and 95, and the work passes |
| `GenerateSummary.ExitCode` | tools/generate_summary.py:145 | 0 iff the evaluation succeeded and passed, 1 otherwise |
| `GenerateSummary.StatusOf` | tools/generate_summary.py:86-91 | exactly one of four labels: ratio at least 0.9, else at least 0.7, else above 0, else not done |
| `GenerateSummary.StatusMonotone` | tools/generate_summary.py:86-91 | a higher score never gets a worse label |
| `GenerateSummary.FixedTableStatuses` | tools/generate_summary.py:86-97 | on the fixed pytest table the first four rows are "excellent" and the output row is "good" |
| `GenerateSummary.TaskRows` | tools/generate_summary.py:93-98 | the six task rows in table order, each with its score, its maximum and the label for that ratio |
| `GenerateSummary.Recommendations` | tools/generate_summary.py:104-115 | the style, imports and output remarks appear iff linters < 10, imports < 15 and output < 10, in that order; the "no remarks" line appears alone iff none applies |
| `GenerateSummary.RemarksUnique` | tools/generate_summary.py:104-115 | the scores determine the remarks: two lists that both meet that description are equal |
| `GenerateSummary.RemarkLines` | tools/generate_summary.py:112-115 | one report line per remark, in the same order |
| `GenerateSummary.BuildReport` | tools/generate_summary.py:58-128 | the result table, then exactly one verdict line ("accepted" iff passed), the six task rows in order with their scores, maxima and labels, the remark lines of exactly the remarks those scores call for, and the two linter scores (0 when absent) |
| `GenerateSummary.SummaryUnique` | tools/generate_summary.py:58-128 | the evaluation and the linter record determine the report: two reports that both meet that description are equal |
| `GenerateSummary.Finish` | tools/generate_summary.py:131-145 | no report after a division by zero; otherwise the report described for that evaluation; the exit code is 0 exactly when the report carries the "accepted" line |
| `GenerateSummary.Summarize` | tools/generate_summary.py:38-145 | no report iff the maximum is 0; otherwise the report described for the evaluation of the loaded configuration, record and pytest scores; the exit code is that of the evaluation and is 0 exactly when the report says "accepted" |
| `StructureSummary.ProbedFiles` | tools/generate_summary_1.py:20-29 | the flags the probe leaves have exactly the four required scripts as keys |
| `StructureSummary.ProbeFiles` | tools/generate_summary_1.py:17-31 | the map has exactly the four required scripts as keys; each flag is true iff the folder exists and holds that script; so all flags true implies the folder exists |
| `StructureSummary.AllFilesExist` | tools/generate_summary_1.py:31 | `all(files.values())`: every flag of the map is true |
| `StructureSummary.StructureSection` | tools/generate_summary_1.py:44-64 | the "folder present" line and the four file rows with their flags in dictionary order when the folder exists, else the single "folder missing" line |
| `StructureSummary.StructureSectionUnique` | tools/generate_summary_1.py:44-64 | the folder flag and the file flags determine the structure section |
| `StructureSummary.ListDetails` | tools/generate_summary_1.py:77-80 | items numbered from 1 for the first `min(25, len)` details, then a line counting the other `len - 25` iff there are more than 25 |
| `StructureSummary.ListingUnique` | tools/generate_summary_1.py:77-80 | the listing is determined by the details |
| `StructureSummary.ListingBounds` | tools/generate_summary_1.py:77-80 | at most 26 lines, and a "more" line iff there are more than 25 details |
| `StructureSummary.ToolSection` | tools/generate_summary_1.py:72-83 | heading, score line and count line; then the list header and the numbered listing of the details iff the count is above 0, else the single "no errors" line; an error text instead of a count raises `TypeError` for that tool |
| `StructureSummary.ToolSectionUnique` | tools/generate_summary_1.py:72-83 | the tool, score, count and details determine that tool's part |
| `StructureSummary.SectionCrashes` | tools/generate_summary_1.py:74-89 | the section raises on the fallback record or when either error count is an error text |
| `StructureSummary.FirstCrash` | tools/generate_summary_1.py:74-89 | the exception raised first in reading order: `KeyError` on the fallback record, else `TypeError` for flake8 when its count is text, else for pylint |
| `StructureSummary.LinterSection` | tools/generate_summary_1.py:67-97 | raises iff the fallback record (`KeyError`) or either tool failed (`TypeError`, flake8 first); otherwise the linters heading, then the flake8 part, then the pylint part, each with its own score, count and details |
| `StructureSummary.LinterSectionUnique` | tools/generate_summary_1.py:67-97 | the record determines the linter section |
| `StructureSummary.ShowLinterSection` | tools/generate_summary_1.py:67 | the linter section is shown iff every script exists and a record was found |
| `StructureSummary.ShownSection` | tools/generate_summary_1.py:67-97 | the linter section when it is shown (raising as the section does), and nothing otherwise |
| `StructureSummary.FinalVerdict` | tools/generate_summary_1.py:100-111 | "not accepted" iff the folder is missing, "rework" iff a script is missing, otherwise "structure correct" followed by exactly one style line, which is "ok" iff a record was found with total at least 8 |
| `StructureSummary.ExitCode` | tools/generate_summary_1.py:130 | 0 iff nothing raised and the folder and all four scripts exist |
| `StructureSummary.VerdictMatchesExitCode` | tools/generate_summary_1.py:100-130 | when the report is written, exit 0 iff the verdict is "structure correct" |
| `StructureSummary.BuildReport` | tools/generate_summary_1.py:36-111 | raises iff the shown linter section raises; otherwise the structure section, then the linter section iff every script exists and a record was found, then the verdict last with no verdict line before it; "structure correct" iff the folder and all scripts exist |
| `StructureSummary.StructureReportUnique` | tools/generate_summary_1.py:36-111 | the folder flag, file flags and record determine the whole report |
| `StructureSummary.Finish` | tools/generate_summary_1.py:36-130 | no report iff the shown section raises; otherwise the report described above; the exit code follows the folder, the scripts and the crash, and is 0 iff the report says "structure correct" |
| `StructureSummary.Summarize` | tools/generate_summary_1.py:15-130 | probes the files and finishes: no report iff the linter section is shown and raises; otherwise the report described for the probed flags; the exit code follows the folder, the scripts and the crash, and is 0 iff the report says "structure correct" |
| `StructureSummary.SectionCrashesOnToolFailure` | tools/generate_summary_1.py:67-97 | on the records `check_linters.py` writes, the section raises iff that script failed or either tool failed |
| `StructureSummary.LintersListingsNeverTruncate` | tools/generate_summary_1.py:77-80 | listings of the details `check_linters.py` keeps have at most three lines and no "more" line |

## Left out

- Running flake8 and pylint is left out, together with their 30-second
  timeouts. Each run is an input: its standard output, or the exception it
  raised.
- Reading and writing files is left out: `linters_result.json`,
  `tasks.json`, `SUMMARY.md` and `GITHUB_STEP_SUMMARY`. So is the
  environment lookup and every console message.
  - The files read are inputs, as `Option` values.
  - The folder probing of `generate_summary_1.py` is a flag plus the set of
    file names present.
  - A crash inside `main` is modelled in `check_linters.py` only, as a
    boolean input of `CheckLinters.Entry`. There it selects the fallback
    record.
- Python's `ast.parse` is left out.
  - The syntax tree is given as the sequence of nodes `ast.walk` visits.
  - A failed read or parse is given as its error.
  - `tests/test_structure.py` is not part of this model.
- The exact markdown and emoji text of both reports is left out. The model
  keeps the lines that carry a result, in order, and leaves out headings,
  blank lines and fixed notes.
- Unicode is left out of the regular expressions and string methods.
  - `\s` and `str.strip` use Python's ASCII whitespace.
  - `re.IGNORECASE` is ASCII lower-casing.
  - `str.splitlines` splits on line feeds only.
- `CheckLinters.Entry` assumes that the exception handler completes. The
  only places `main` can raise are its write of `linters_result.json` and
  its prints. When that failure repeats in the handler, no fallback is
  written:
  - a print that fails on the console encoding fails again on the handler's
    message, and the file keeps the full record `main` wrote;
  - a write that fails also fails when the handler reopens the same path,
    and nothing is written.

  In both cases only the exit status 1 is certain. So
  `StructureSummary.SectionCrashesOnToolFailure` speaks only of the records
  `CheckLinters.Entry` yields under that assumption.
- `SyntaxChecks.HasBrowserLaunch`: the browser name is matched literally, so a
  name containing regular-expression metacharacters is not modelled. The
  three names used are plain letters.
- `GenerateSummary.PercentTenths`: the percentage is rounded from the exact
  rational, half to even, in integer tenths. Python computes
  `total / max * 100` in floating point before `round`, and a binary
  rounding error near a tie can round the other way.
- `GenerateSummary.StatusOf`: the ratio is compared by integer
  cross-multiplication, not with a floating-point division. The two agree
  except where the float quotient rounds across 0.9 or 0.7.
- `GenerateSummary.StatusOf` requires a positive maximum. That always holds
  in the source, which uses only the fixed maxima 15 and 20.
- `generate_summary.py` is modelled only on the linter records
  `check_linters.py` writes. The pytest scores are an input map from names to
  integers; `GenerateSummary.FixedPytestScores` is the fixed table the script
  itself passes. A `tasks.json` without its two keys, non-integer settings, a
  linter record of another shape, and pytest results of another shape are not
  modelled.
- `generate_summary_1.py` is modelled only on the linter records
  `check_linters.py` writes. An empty JSON object, which Python treats as
  false, is not modelled.
- `StructureSummary.BuildReport`, `StructureSummary.Finish` and
  `StructureSummary.StructureSection` require the four required scripts among
  the keys of the map. `StructureSummary.ProbeFiles` always builds such a
  map.
