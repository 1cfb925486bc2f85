/** `tools/check_linters.py`: turns the output of flake8 and pylint into two
    scores out of 10, their sum out of 20, the record it leaves in
    `linters_result.json` and its exit code. The two programs are not run
    here: each run is given as its standard output or as the exception it
    raised. */
module CheckLinters {
  import opened Text

  /** One run of a linter: what it printed, or the exception that stopped it
      (program missing, 30-second timeout, ...). */
  datatype Invocation = Completed(stdout: string) | Raised(message: string)

  /** The `*_errors` field: a count, or the text `ошибка: <exception>` that
      replaces it when the run raised. */
  datatype ErrorCount = Count(n: nat) | ErrorText(text: string)

  /** What `run_flake8` and `run_pylint` return: score, error count and the
      first findings. */
  datatype ToolResult = ToolResult(score: int, errors: ErrorCount, details: seq<string>)

  /** The contents of `linters_result.json`: the full record `main` writes, or
      the three zeros written when `main` itself raised. */
  datatype LintersRecord =
    | Full(flake8Score: int, flake8Errors: ErrorCount, flake8Details: seq<string>,
           pylintScore: int, pylintErrors: ErrorCount, pylintDetails: seq<string>, total: int)
    | Fallback
  {
    /** The `total` field; the fallback record has 0. */
    function Total(): int {
      if Full? then total else 0
    }

    /** The `flake8_score` field; the fallback record has 0. */
    function Flake8ScoreField(): int {
      if Full? then flake8Score else 0
    }

    /** The `pylint_score` field; the fallback record has 0. */
    function PylintScoreField(): int {
      if Full? then pylintScore else 0
    }
  }

  // ---------------------------------------------------------------------
  // Scores
  // ---------------------------------------------------------------------

  /** The saturating score `max(0, 10 - n // d)`: one point off for every `d`
      errors, never below zero. */
  function LinterScore(n: nat, d: nat): (score: int)
    requires d > 0
    ensures 0 <= score <= 10
    ensures score == 10 <==> n < d
    ensures score == 0 <==> n >= 10 * d
  {
    QuotientBounds(n, d);
    if 10 - n / d > 0 then 10 - n / d else 0
  }

  /** The quotient is 0 below one divisor and at least 10 from ten divisors on. */
  lemma QuotientBounds(n: nat, d: nat)
    requires d > 0
    ensures n / d == 0 <==> n < d
    ensures n / d >= 10 <==> n >= 10 * d
  {
    QuotientBelow(n, d, 1);
    QuotientBelow(n, d, 10);
  }

  lemma QuotientBelow(n: nat, d: nat, k: nat)
    requires d > 0
    ensures n / d >= k <==> n >= k * d
  {
    var q, r := n / d, n % d;
    assert n == q * d + r && 0 <= r < d;
    if n >= k * d {
      assert k * d < (q + 1) * d;
      MulLessCancel(k, q + 1, d);
    }
    if q >= k {
      assert (q - k) * d >= 0;
      assert q * d == (q - k) * d + k * d;
    }
  }

  /** More errors never raise the score. */
  lemma LinterScoreMonotone(n: nat, m: nat, d: nat)
    requires d > 0 && n <= m
    ensures LinterScore(m, d) <= LinterScore(n, d)
  {
    DivMonotone(n, m, d);
  }

  lemma DivMonotone(n: nat, m: nat, d: nat)
    requires d > 0 && n <= m
    ensures n / d <= m / d
  {
    assert n == (n / d) * d + n % d && m == (m / d) * d + m % d;
    assert (n / d) * d <= n <= m < (m / d + 1) * d;
    MulLessCancel(n / d, m / d + 1, d);
  }

  lemma MulLessCancel(a: int, b: int, d: int)
    requires d > 0 && a * d < b * d
    ensures a < b
  {
    assert (b - a) * d > 0;
  }

  /** Euclidean division is determined by quotient and remainder. */
  lemma DivUnique(a: int, r: int, d: int)
    requires d > 0 && 0 <= r < d
    ensures (a * d + r) / d == a
  {
    var x := a * d + r;
    var q := x / d;
    assert x == q * d + x % d;
    assert (a - q) * d == x % d - r;
    assert (a - q) * d < 1 * d;
    MulLessCancel(a - q, 1, d);
    assert (-1) * d < (a - q) * d;
    MulLessCancel(-1, a - q, d);
  }

  /** Each further `d` errors cost exactly one point until the score reaches zero. */
  lemma LinterScoreStep(n: nat, d: nat)
    requires d > 0
    ensures LinterScore(n + d, d) == if LinterScore(n, d) > 0 then LinterScore(n, d) - 1 else 0
  {
    assert n == (n / d) * d + n % d;
    assert n + d == (n / d + 1) * d + n % d;
    DivUnique(n / d + 1, n % d, d);
  }

  /** flake8: one point per two findings. */
  function Flake8Score(n: nat): (score: int)
    ensures 0 <= score <= 10
    ensures score == 0 <==> n >= 20
  {
    LinterScore(n, 2)
  }

  /** pylint: one point per critical finding. */
  function PylintScore(n: nat): (score: int)
    ensures 0 <= score <= 10
    ensures score == 10 <==> n == 0
    ensures score == 0 <==> n >= 10
  {
    LinterScore(n, 1)
  }

  /** Seven flake8 findings leave 7 points. */
  lemma Flake8SevenFindings()
    ensures Flake8Score(7) == 7
  {
  }

  // ---------------------------------------------------------------------
  // Findings
  // ---------------------------------------------------------------------

  predicate NonEmpty(line: string) {
    line != ""
  }

  /** A pylint line that counts: it begins with `E:` or `F:`. */
  predicate IsCritical(line: string): (b: bool)
    ensures b <==> |line| >= 2 && line[1] == ':' && (line[0] == 'E' || line[0] == 'F')
  {
    assert |line| >= 2 ==> line[..2] == [line[0], line[1]];
    PrefixAt(line, 0, "E:") || PrefixAt(line, 0, "F:")
  }

  /** The lines of the stripped output that flake8 is charged for: every
      non-empty one, in order. */
  function Flake8Findings(stdout: string): (r: seq<string>)
    ensures |r| <= |SplitLines(Strip(stdout))|
    ensures forall l :: l in r <==> l in SplitLines(Strip(stdout)) && l != ""
  {
    Filter(NonEmpty, SplitLines(Strip(stdout)))
  }

  /** The lines of the stripped output that pylint is charged for. */
  function PylintFindings(stdout: string): (r: seq<string>)
    ensures |r| <= |SplitLines(Strip(stdout))|
    ensures forall l :: l in r <==> l in SplitLines(Strip(stdout)) && IsCritical(l)
  {
    Filter(IsCritical, SplitLines(Strip(stdout)))
  }

  /** `run_flake8` on a completed run. */
  function RunFlake8(stdout: string): (r: ToolResult)
    ensures r.errors.Count? && r.errors.n == |Flake8Findings(stdout)|
    ensures r.score == Flake8Score(r.errors.n)
    ensures r.details == Take(Flake8Findings(stdout), 3) && |r.details| <= 3
  {
    var errors := Flake8Findings(stdout);
    ToolResult(Flake8Score(|errors|), Count(|errors|), Take(errors, 3))
  }

  /** `run_pylint` on a completed run. */
  function RunPylint(stdout: string): (r: ToolResult)
    ensures r.errors.Count? && r.errors.n == |PylintFindings(stdout)|
    ensures r.score == PylintScore(r.errors.n)
    ensures r.details == Take(PylintFindings(stdout), 3) && |r.details| <= 3
  {
    var errors := PylintFindings(stdout);
    ToolResult(PylintScore(|errors|), Count(|errors|), Take(errors, 3))
  }

  /** The flake8 count is the number of non-empty lines of the stripped
      output, each counted as often as it occurs, and no empty line counts. */
  lemma Flake8CountsNonEmptyLines(stdout: string, line: string)
    ensures multiset(Flake8Findings(stdout))[line] == if line == "" then 0 else multiset(SplitLines(Strip(stdout)))[line]
    ensures "" !in Flake8Findings(stdout)
  {
    FilterCounts(NonEmpty, SplitLines(Strip(stdout)), line);
  }

  /** The pylint count takes exactly the lines that begin with `E:` or `F:`,
      each as often as it occurs. */
  lemma PylintCountsCriticalLines(stdout: string, line: string)
    ensures multiset(PylintFindings(stdout))[line] == if IsCritical(line) then multiset(SplitLines(Strip(stdout)))[line] else 0
  {
    FilterCounts(IsCritical, SplitLines(Strip(stdout)), line);
  }

  /** A line that starts with a file path, such as
      `you_playwright/run_chromium.py:3:0: E0401: ...`, is never counted by
      the pylint filter, whatever message code follows the path. */
  lemma PathLinesNotCritical(rest: string)
    ensures !IsCritical("you_playwright/" + rest)
  {
    var line := "you_playwright/" + rest;
    assert line[0] == 'y';
  }

  // ---------------------------------------------------------------------
  // `main` and the `__main__` guard
  // ---------------------------------------------------------------------

  /** The flake8 half of `main`: the result of `run_flake8` when it
      completes; when it raises, score 0, the exception text in place of the
      count, and no findings. */
  function Flake8Result(inv: Invocation): (r: ToolResult)
    ensures inv.Completed? ==> r == RunFlake8(inv.stdout)
    ensures inv.Raised? ==> r == ToolResult(0, ErrorText("ошибка: " + inv.message), [])
    ensures 0 <= r.score <= 10 && |r.details| <= 3
  {
    if inv.Completed? then RunFlake8(inv.stdout)
    else ToolResult(0, ErrorText("ошибка: " + inv.message), [])
  }

  /** The pylint half of `main`, with the same fallback. */
  function PylintResult(inv: Invocation): (r: ToolResult)
    ensures inv.Completed? ==> r == RunPylint(inv.stdout)
    ensures inv.Raised? ==> r == ToolResult(0, ErrorText("ошибка: " + inv.message), [])
    ensures 0 <= r.score <= 10 && |r.details| <= 3
  {
    if inv.Completed? then RunPylint(inv.stdout)
    else ToolResult(0, ErrorText("ошибка: " + inv.message), [])
  }

  datatype RunResult = RunResult(record: LintersRecord, exitCode: int)

  /** `main`: both tools, each falling back on its own to a zero score, their
      sum, and exit code 0 exactly when the sum reaches 12. */
  function MainResult(flake8: Invocation, pylint: Invocation): (r: RunResult)
    ensures r.record.Full?
    ensures r.record.total == r.record.flake8Score + r.record.pylintScore
    ensures 0 <= r.record.total <= 20
    ensures r.exitCode == (if r.record.total >= 12 then 0 else 1)
    ensures flake8.Raised? ==> r.record.flake8Score == 0 && r.record.flake8Details == []
                               && r.record.flake8Errors == ErrorText("ошибка: " + flake8.message)
    ensures pylint.Raised? ==> r.record.pylintScore == 0 && r.record.pylintDetails == []
                               && r.record.pylintErrors == ErrorText("ошибка: " + pylint.message)
    ensures flake8.Completed? ==> var findings := Flake8Findings(flake8.stdout);
                                  && r.record.flake8Score == Flake8Score(|findings|)
                                  && r.record.flake8Errors == Count(|findings|)
                                  && r.record.flake8Details == Take(findings, 3)
    ensures pylint.Completed? ==> var findings := PylintFindings(pylint.stdout);
                                  && r.record.pylintScore == PylintScore(|findings|)
                                  && r.record.pylintErrors == Count(|findings|)
                                  && r.record.pylintDetails == Take(findings, 3)
    ensures |r.record.flake8Details| <= 3 && |r.record.pylintDetails| <= 3
  {
    var f := Flake8Result(flake8);
    var p := PylintResult(pylint);
    var total := f.score + p.score;
    RunResult(Full(f.score, f.errors, f.details, p.score, p.errors, p.details, total),
              if total >= 12 then 0 else 1)
  }

  /** How one tool's run ends leaves the other tool's half of the record as
      it would have been: a failing flake8 run does not touch the pylint
      fields, and the other way round. */
  lemma ToolFailuresAreIndependent(flake8: Invocation, otherFlake8: Invocation,
                                   pylint: Invocation, otherPylint: Invocation)
    ensures var a, b := MainResult(flake8, pylint).record, MainResult(otherFlake8, pylint).record;
            a.pylintScore == b.pylintScore && a.pylintErrors == b.pylintErrors && a.pylintDetails == b.pylintDetails
    ensures var a, b := MainResult(flake8, pylint).record, MainResult(flake8, otherPylint).record;
            a.flake8Score == b.flake8Score && a.flake8Errors == b.flake8Errors && a.flake8Details == b.flake8Details
  {
  }

  /** Both tools clean: 10 + 10 points and a zero exit code. */
  lemma CleanRunsScoreTwenty()
    ensures MainResult(Completed(""), Completed("")).record.total == 20
    ensures MainResult(Completed(""), Completed("")).exitCode == 0
  {
    assert Strip("") == "";
  }

  /** The script as run: `sys.exit(main())`; when `main` raises, the
      handler's message and rewrite of the record are taken to succeed, so
      the record becomes the fallback with all three fields 0, and the exit
      status is 1. A handler that itself raises is not modelled: then the
      file keeps whatever `main` had written, or nothing. */
  function Entry(flake8: Invocation, pylint: Invocation, mainRaises: bool): (r: RunResult)
    ensures mainRaises ==> r.record == Fallback && r.record.Total() == 0 && r.exitCode == 1
    ensures !mainRaises ==> r == MainResult(flake8, pylint)
    ensures r.exitCode == 0 <==> !mainRaises && r.record.Total() >= 12
  {
    if mainRaises then RunResult(Fallback, 1) else MainResult(flake8, pylint)
  }
}
