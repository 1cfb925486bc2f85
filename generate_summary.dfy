/** `tools/generate_summary.py`: folds the pytest scores and the linter total
    into one score out of the configured maximum, a percentage to one decimal,
    a pass/fail verdict that becomes the exit code, a status label per task
    and a list of recommendations. */
module GenerateSummary {
  import opened Wrappers
  import opened CheckLinters

  // ---------------------------------------------------------------------
  // Inputs and their defaults
  // ---------------------------------------------------------------------

  /** `.github/tasks.json`: the maximum total and the passing percentage. */
  datatype TasksConfig = TasksConfig(maxTotalScore: int, passingScore: int)

  const DefaultTasks: TasksConfig := TasksConfig(100, 70)

  /** `load_tasks`: the file's settings, or 100 and 70 when it is missing. */
  function LoadTasks(file: Option<TasksConfig>): (c: TasksConfig)
    ensures file.None? ==> c.maxTotalScore == 100 && c.passingScore == 70
    ensures file.Some? ==> c == file.value
  {
    if file.Some? then file.value else DefaultTasks
  }

  /** `load_linter_results`: the record in `linters_result.json`, or, when
      there is none, the record `{total: 0, flake8_score: 0, pylint_score: 0}`,
      which is the same as the fallback record `check_linters.py` writes. */
  function LoadLinterResults(file: Option<LintersRecord>): (r: LintersRecord)
    ensures file.None? ==> r.Total() == 0 && r.Flake8ScoreField() == 0 && r.PylintScoreField() == 0
    ensures file.Some? ==> r == file.value
  {
    if file.Some? then file.value else Fallback
  }

  /** `dict.get(key, 0)` on the pytest scores. */
  function Get(m: map<string, int>, key: string): (r: int)
    ensures key in m ==> r == m[key]
    ensures key !in m ==> r == 0
  {
    if key in m then m[key] else 0
  }

  /** The fixed table `load_pytest_results` returns in place of real pytest
      results. */
  function FixedPytestScores(): (m: map<string, int>)
    ensures m.Keys == {"task1_structure", "task1_syntax", "task1_imports", "task2_syntax", "task2_output"}
    ensures m["task1_structure"] + m["task1_syntax"] + m["task1_imports"] + m["task2_syntax"] + m["task2_output"] == 80
  {
    map["task1_structure" := 15, "task1_syntax" := 20, "task1_imports" := 18,
        "task2_syntax" := 15, "task2_output" := 12]
  }

  // ---------------------------------------------------------------------
  // Aggregation
  // ---------------------------------------------------------------------

  /** The `scores` dictionary, in its order. */
  datatype Scores = Scores(task1Structure: int, task1Syntax: int, task1Imports: int,
                           task2Syntax: int, task2Output: int, linters: int)
  {
    function Sum(): int {
      task1Structure + task1Syntax + task1Imports + task2Syntax + task2Output + linters
    }
  }

  const LinterCap: int := 15

  /** `min(total, 15)`: the linter total counts for at most 15 points. */
  function LinterContribution(total: int): (c: int)
    ensures c <= LinterCap
    ensures c == total || c == LinterCap
    ensures c == total <==> total <= LinterCap
  {
    if total < LinterCap then total else LinterCap
  }

  function CollectScores(pytest: map<string, int>, linters: LintersRecord): (s: Scores)
    ensures s.linters == LinterContribution(linters.Total())
    ensures s.Sum() == Get(pytest, "task1_structure") + Get(pytest, "task1_syntax") + Get(pytest, "task1_imports")
                       + Get(pytest, "task2_syntax") + Get(pytest, "task2_output") + LinterContribution(linters.Total())
  {
    Scores(Get(pytest, "task1_structure"), Get(pytest, "task1_syntax"), Get(pytest, "task1_imports"),
           Get(pytest, "task2_syntax"), Get(pytest, "task2_output"), LinterContribution(linters.Total()))
  }

  function Abs(x: int): nat {
    if x < 0 then -x else x
  }

  /** `n / d` for a positive `d`, rounded to the nearest integer, an exact
      half going to the even neighbour. */
  function RoundPositive(n: int, d: int): (r: int)
    requires d > 0
    ensures Abs(2 * (r * d - n)) <= d
    ensures Abs(2 * (r * d - n)) == d ==> r % 2 == 0
  {
    var q, rem := n / d, n % d;
    assert n == q * d + rem && 0 <= rem < d;
    assert (q + 1) * d - n == d - rem;
    if 2 * rem > d then q + 1
    else if 2 * rem < d then q
    else if q % 2 == 0 then q else q + 1
  }

  /** `a / b` rounded to the nearest integer, an exact half going to the even
      neighbour: the rule of Python's `round`. */
  function RoundHalfEven(a: int, b: int): (r: int)
    requires b != 0
    ensures Abs(2 * (r * b - a)) <= Abs(b)
    ensures Abs(2 * (r * b - a)) == Abs(b) ==> r % 2 == 0
  {
    if b > 0 then RoundPositive(a, b)
    else
      var r := RoundPositive(-a, -b);
      assert r * b - a == -(r * (-b) - (-a));
      r
  }

  /** `round(total / max_score * 100, 1)`, counted in tenths of a percent. */
  function PercentTenths(total: int, maxScore: int): (p: int)
    requires maxScore != 0
    ensures Abs(2 * (p * maxScore - 1000 * total)) <= Abs(maxScore)
    ensures Abs(2 * (p * maxScore - 1000 * total)) == Abs(maxScore) ==> p % 2 == 0
  {
    RoundHalfEven(1000 * total, maxScore)
  }

  /** Everything `main` computes before it writes the report. */
  datatype Evaluation = Evaluation(scores: Scores, totalScore: int, maxScore: int, passingScore: int,
                                   percentTenths: int, passed: bool)

  /** The exception `main` can raise on its inputs. */
  datatype Crash = ZeroDivision

  /** The score aggregation of `main`. A zero maximum makes the percentage a
      division by zero. Otherwise the total is the sum of the six scores and
      the work passes when the rounded percentage reaches the passing score,
      equality included. */
  function Evaluate(tasks: TasksConfig, linters: LintersRecord, pytest: map<string, int>): (r: Result<Evaluation, Crash>)
    ensures r.Err? <==> tasks.maxTotalScore == 0
    ensures r.Ok? ==> r.value.scores == CollectScores(pytest, linters) && r.value.totalScore == r.value.scores.Sum()
    ensures r.Ok? ==> r.value.maxScore == tasks.maxTotalScore && r.value.passingScore == tasks.passingScore
    ensures r.Ok? ==> r.value.percentTenths == PercentTenths(r.value.totalScore, tasks.maxTotalScore)
    ensures r.Ok? ==> (r.value.passed <==> r.value.percentTenths >= 10 * tasks.passingScore)
  {
    if tasks.maxTotalScore == 0 then Err(ZeroDivision)
    else
      var scores := CollectScores(pytest, linters);
      var total := scores.Sum();
      var tenths := PercentTenths(total, tasks.maxTotalScore);
      Ok(Evaluation(scores, total, tasks.maxTotalScore, tasks.passingScore, tenths, tenths >= 10 * tasks.passingScore))
  }

  /** The verdict is inclusive: a percentage exactly at the passing score passes. */
  lemma PassingScoreIsInclusive(tasks: TasksConfig, linters: LintersRecord, pytest: map<string, int>)
    requires tasks.maxTotalScore != 0
    requires Evaluate(tasks, linters, pytest).value.percentTenths == 10 * tasks.passingScore
    ensures Evaluate(tasks, linters, pytest).value.passed
  {
  }

  /** With the default configuration, the fixed pytest table (80 points) and
      any linter total that is not negative, the percentage is the total
      itself, at least 80, and the work always passes. */
  lemma DefaultsAlwaysPass(linters: LintersRecord)
    requires linters.Total() >= 0
    ensures var r := Evaluate(LoadTasks(None), linters, FixedPytestScores());
            r.Ok? && 800 <= r.value.percentTenths <= 950 && r.value.percentTenths == 10 * r.value.totalScore
            && r.value.passed
  {
    var pytest := FixedPytestScores();
    assert Get(pytest, "task1_structure") == 15 && Get(pytest, "task1_syntax") == 20;
    assert Get(pytest, "task1_imports") == 18 && Get(pytest, "task2_syntax") == 15;
    assert Get(pytest, "task2_output") == 12;
    var total := CollectScores(pytest, linters).Sum();
    assert 80 <= total <= 95;
    var p := PercentTenths(total, 100);
    assert Abs(2 * (p * 100 - 1000 * total)) <= 100;
  }

  /** `sys.exit(0 if percentage >= passing_score else 1)`; an uncaught
      division by zero also ends the script with status 1. */
  function ExitCode(r: Result<Evaluation, Crash>): (code: int)
    ensures code == 0 <==> r.Ok? && r.value.passed
    ensures code == 0 || code == 1
  {
    if r.Ok? && r.value.passed then 0 else 1
  }

  // ---------------------------------------------------------------------
  // Status labels
  // ---------------------------------------------------------------------

  datatype Status = Excellent | Good | NeedsWork | NotDone
  {
    /** The label's rank, best first. */
    function Rank(): nat {
      match this
      case Excellent => 0
      case Good => 1
      case NeedsWork => 2
      case NotDone => 3
    }
  }

  /** `status_emoji`: ratio at least 0.9, else at least 0.7, else above 0,
      else not done. The ratio is compared by cross-multiplying, which for
      the small integer scores of the report decides exactly as the
      floating-point comparison does. */
  function StatusOf(score: int, maxScore: int): (s: Status)
    requires maxScore > 0
    ensures s == Excellent <==> 10 * score >= 9 * maxScore
    ensures s == Good <==> 10 * score < 9 * maxScore && 10 * score >= 7 * maxScore
    ensures s == NeedsWork <==> 10 * score < 7 * maxScore && score > 0
    ensures s == NotDone <==> score <= 0
  {
    if 10 * score >= 9 * maxScore then Excellent
    else if 10 * score >= 7 * maxScore then Good
    else if score > 0 then NeedsWork
    else NotDone
  }

  /** A higher score never gets a worse label. */
  lemma StatusMonotone(a: int, b: int, maxScore: int)
    requires maxScore > 0 && a <= b
    ensures StatusOf(b, maxScore).Rank() <= StatusOf(a, maxScore).Rank()
  {
  }

  /** The tasks of the details table, in its order, with the maximum each
      row is shown out of. */
  datatype Task = Structure | Syntax | ImportsAndBrowsers | HeadlessSyntax | OutputFormat | CodeStyle

  const Tasks: seq<Task> := [Structure, Syntax, ImportsAndBrowsers, HeadlessSyntax, OutputFormat, CodeStyle]

  function OutOf(t: Task): int {
    match t
    case Structure => 15
    case Syntax => 20
    case ImportsAndBrowsers => 20
    case HeadlessSyntax => 15
    case OutputFormat => 15
    case CodeStyle => 15
  }

  function ScoreOf(s: Scores, t: Task): int {
    match t
    case Structure => s.task1Structure
    case Syntax => s.task1Syntax
    case ImportsAndBrowsers => s.task1Imports
    case HeadlessSyntax => s.task2Syntax
    case OutputFormat => s.task2Output
    case CodeStyle => s.linters
  }

  /** On the fixed pytest table the first four rows read "excellent" and the
      output row, 12 out of 15, reads "good". */
  lemma FixedTableStatuses(linters: LintersRecord)
    ensures var s := CollectScores(FixedPytestScores(), linters);
            && StatusOf(ScoreOf(s, Structure), OutOf(Structure)) == Excellent
            && StatusOf(ScoreOf(s, Syntax), OutOf(Syntax)) == Excellent
            && StatusOf(ScoreOf(s, ImportsAndBrowsers), OutOf(ImportsAndBrowsers)) == Excellent
            && StatusOf(ScoreOf(s, HeadlessSyntax), OutOf(HeadlessSyntax)) == Excellent
            && StatusOf(ScoreOf(s, OutputFormat), OutOf(OutputFormat)) == Good
  {
    var pytest := FixedPytestScores();
    assert Get(pytest, "task1_structure") == 15 && Get(pytest, "task1_syntax") == 20;
    assert Get(pytest, "task1_imports") == 18 && Get(pytest, "task2_syntax") == 15;
    assert Get(pytest, "task2_output") == 12;
  }

  // ---------------------------------------------------------------------
  // Recommendations and the report
  // ---------------------------------------------------------------------

  /** The recommendation lines, in the order the script may add them. */
  datatype Remark = StyleRemark | ImportsRemark | OutputRemark | NoRemarks
  {
    function Order(): nat {
      match this
      case StyleRemark => 0
      case ImportsRemark => 1
      case OutputRemark => 2
      case NoRemarks => 3
    }
  }

  /** The recommendations block: a remark for linters below 10, one for
      imports below 15, one for the output task below 10, in that order; the
      single "no remarks" line when none applies. */
  ghost predicate IsRemarks(lines: seq<Remark>, scores: Scores) {
    && (StyleRemark in lines <==> scores.linters < 10)
    && (ImportsRemark in lines <==> scores.task1Imports < 15)
    && (OutputRemark in lines <==> scores.task2Output < 10)
    && (NoRemarks in lines <==> scores.linters >= 10 && scores.task1Imports >= 15 && scores.task2Output >= 10)
    && (NoRemarks in lines ==> lines == [NoRemarks])
    && Increasing(lines)
  }

  ghost predicate Increasing(lines: seq<Remark>) {
    forall i, j :: 0 <= i < j < |lines| ==> lines[i].Order() < lines[j].Order()
  }

  /** The block is determined by the scores. */
  lemma RemarksUnique(a: seq<Remark>, b: seq<Remark>, scores: Scores)
    requires IsRemarks(a, scores) && IsRemarks(b, scores)
    ensures a == b
  {
    assert forall x :: x in a <==> x in b by {
      forall x ensures x in a <==> x in b {
        match x
        case StyleRemark =>
        case ImportsRemark =>
        case OutputRemark =>
        case NoRemarks =>
      }
    }
    IncreasingUnique(a, b);
  }

  /** Two increasing lists of the same remarks are the same list. */
  lemma {:induction false} IncreasingUnique(a: seq<Remark>, b: seq<Remark>)
    requires Increasing(a) && Increasing(b)
    requires forall x :: x in a <==> x in b
    ensures a == b
    decreases |a|
  {
    if a == [] || b == [] {
      SameEmptiness(a, b);
    } else {
      if a[0] != b[0] {
        assert a[0] in b && b[0] in a;
        HeadIsLeast(b, a[0]);
        HeadIsLeast(a, b[0]);
        assert false;
      }
      forall x ensures x in a[1..] <==> x in b[1..] {
        TailMembers(a, x);
        TailMembers(b, x);
      }
      IncreasingUnique(a[1..], b[1..]);
      assert a == [a[0]] + a[1..] && b == [b[0]] + b[1..];
    }
  }

  lemma SameEmptiness(a: seq<Remark>, b: seq<Remark>)
    requires forall x :: x in a <==> x in b
    ensures a == [] <==> b == []
  {
    if a != [] {
      assert a[0] in a;
    }
    if b != [] {
      assert b[0] in b;
    }
  }

  lemma HeadIsLeast(a: seq<Remark>, x: Remark)
    requires Increasing(a) && x in a && x != a[0]
    ensures a[0].Order() < x.Order()
  {
    var k :| 0 <= k < |a| && a[k] == x;
  }

  /** The tail of an increasing list holds everything but its head. */
  lemma TailMembers(a: seq<Remark>, x: Remark)
    requires Increasing(a) && a != []
    ensures x in a[1..] <==> x in a && x != a[0]
  {
    if x in a[1..] {
      var k :| 0 <= k < |a| - 1 && a[1..][k] == x;
      assert a[k + 1] == x;
    }
    if x in a && x != a[0] {
      var k :| 0 <= k < |a| && a[k] == x;
      assert a[1..][k - 1] == x;
    }
  }

  /** `main`'s recommendations: the block for these scores. */
  method Recommendations(scores: Scores) returns (lines: seq<Remark>)
    ensures IsRemarks(lines, scores)
  {
    var issues: seq<Remark> := [];
    if scores.linters < 10 {
      issues := issues + [StyleRemark];
    }
    if scores.task1Imports < 15 {
      issues := issues + [ImportsRemark];
    }
    if scores.task2Output < 10 {
      issues := issues + [OutputRemark];
    }
    if issues != [] {
      lines := issues;
    } else {
      lines := [NoRemarks];
    }
  }

  /** The lines of the report that carry a result; headings, blank lines and
      fixed notes are not modelled. */
  datatype SummaryLine =
    | TotalLine(total: int, maxScore: int)
    | PercentLine(tenths: int)
    | ThresholdLine(passing: int)
    | AcceptedLine
    | ReworkLine(tenths: int, passing: int)
    | TaskRow(task: Task, score: int, outOf: int, status: Status)
    | RemarkLine(remark: Remark)
    | Flake8Line(score: int)
    | PylintLine(score: int)

  /** A row of the details table: the task, its score, its maximum and its label. */
  function Row(s: Scores, t: Task): SummaryLine {
    TaskRow(t, ScoreOf(s, t), OutOf(t), StatusOf(ScoreOf(s, t), OutOf(t)))
  }

  /** The six task rows, in table order, from index `at` of `report`. */
  ghost predicate TaskRowsAt(report: seq<SummaryLine>, at: nat, s: Scores) {
    at + |Tasks| <= |report| && forall k :: 0 <= k < |Tasks| ==> report[at + k] == Row(s, Tasks[k])
  }

  /** The recommendations `rs`, one line each, from index `at` of `report`
      up to the two linter lines that close it. */
  ghost predicate RemarksAt(report: seq<SummaryLine>, at: nat, rs: seq<Remark>) {
    at + |rs| + 2 == |report| && forall m :: 0 <= m < |rs| ==> report[at + m] == RemarkLine(rs[m])
  }

  /** The report for an evaluation: the result table, one verdict line, the
      six task rows, the recommendations for the scores, and the two linter
      scores (0 when the record lacks them). */
  ghost predicate IsSummary(report: seq<SummaryLine>, e: Evaluation, linters: LintersRecord) {
    && |report| >= 13
    && report[..3] == [TotalLine(e.totalScore, e.maxScore), PercentLine(e.percentTenths), ThresholdLine(e.passingScore)]
    && report[3] == (if e.passed then AcceptedLine else ReworkLine(e.percentTenths, e.passingScore))
    && TaskRowsAt(report, 4, e.scores)
    && (exists rs :: IsRemarks(rs, e.scores) && RemarksAt(report, 10, rs))
    && report[|report| - 2..] == [Flake8Line(linters.Flake8ScoreField()), PylintLine(linters.PylintScoreField())]
  }

  /** The report is determined by the evaluation and the linter record. */
  lemma SummaryUnique(a: seq<SummaryLine>, b: seq<SummaryLine>, e: Evaluation, linters: LintersRecord)
    requires IsSummary(a, e, linters) && IsSummary(b, e, linters)
    ensures a == b
  {
    var ra :| IsRemarks(ra, e.scores) && RemarksAt(a, 10, ra);
    var rb :| IsRemarks(rb, e.scores) && RemarksAt(b, 10, rb);
    RemarksUnique(ra, rb, e.scores);
    forall k | 0 <= k < |a|
      ensures a[k] == b[k]
    {
      if k < 3 {
        assert a[k] == a[..3][k] && b[k] == b[..3][k];
      } else if 4 <= k < 10 {
        assert a[4 + (k - 4)] == Row(e.scores, Tasks[k - 4]) == b[4 + (k - 4)];
      } else if 10 <= k < |a| - 2 {
        assert a[10 + (k - 10)] == RemarkLine(ra[k - 10]) == b[10 + (k - 10)];
      } else if k >= |a| - 2 {
        assert a[k] == a[|a| - 2..][k - (|a| - 2)] && b[k] == b[|b| - 2..][k - (|b| - 2)];
      }
    }
  }

  /** The details table: one row per task, in table order. */
  method TaskRows(s: Scores) returns (rows: seq<SummaryLine>)
    ensures TaskRowsAt(rows, 0, s) && |rows| == |Tasks|
  {
    rows := [];
    var k := 0;
    while k < |Tasks|
      invariant 0 <= k <= |Tasks|
      invariant |rows| == k
      invariant forall m :: 0 <= m < k ==> rows[m] == Row(s, Tasks[m])
    {
      rows := rows + [Row(s, Tasks[k])];
      k := k + 1;
    }
  }

  /** The recommendations block as report lines, in order. */
  method RemarkLines(remarks: seq<Remark>) returns (notes: seq<SummaryLine>)
    ensures |notes| == |remarks|
    ensures forall m :: 0 <= m < |notes| ==> notes[m] == RemarkLine(remarks[m])
  {
    notes := [];
    var i := 0;
    while i < |remarks|
      invariant 0 <= i <= |remarks|
      invariant |notes| == i
      invariant forall m :: 0 <= m < i ==> notes[m] == RemarkLine(remarks[m])
    {
      notes := notes + [RemarkLine(remarks[i])];
      i := i + 1;
    }
  }

  /** Joining the parts of the report keeps each part at its place, and
      only the head can hold the "accepted" line. */
  lemma JoinedSummary(head: seq<SummaryLine>, rows: seq<SummaryLine>, notes: seq<SummaryLine>,
                      tools: seq<SummaryLine>, s: Scores, remarks: seq<Remark>)
    requires |head| == 4 && TaskRowsAt(rows, 0, s) && |rows| == |Tasks| && |tools| == 2
    requires |notes| == |remarks| && forall m :: 0 <= m < |notes| ==> notes[m] == RemarkLine(remarks[m])
    requires forall l :: l in tools ==> !l.AcceptedLine?
    ensures var report := head + rows + notes + tools;
            && report[..4] == head
            && TaskRowsAt(report, 4, s)
            && RemarksAt(report, 10, remarks)
            && report[|report| - 2..] == tools
            && (AcceptedLine in report <==> AcceptedLine in head)
  {
    var report := head + rows + notes + tools;
    assert report[..4] == head;
    assert forall m :: 4 <= m < 10 ==> report[m] == rows[m - 4];
    assert forall m :: 0 <= m < |remarks| ==> report[10 + m] == notes[m];
    assert report[|report| - 2..] == tools;
    forall m | 4 <= m < |report|
      ensures !report[m].AcceptedLine?
    {
      if m < 10 {
        assert report[m] == rows[0 + (m - 4)] == Row(s, Tasks[m - 4]);
      } else if m < |report| - 2 {
        assert report[m] == notes[m - 10] == RemarkLine(remarks[m - 10]);
      } else {
        assert report[m] == tools[m - (|report| - 2)] && tools[m - (|report| - 2)] in tools;
      }
    }
  }

  /** The report `main` assembles line by line. */
  method BuildReport(e: Evaluation, linters: LintersRecord) returns (report: seq<SummaryLine>)
    ensures IsSummary(report, e, linters)
    ensures AcceptedLine in report <==> e.passed
  {
    var head := [TotalLine(e.totalScore, e.maxScore), PercentLine(e.percentTenths), ThresholdLine(e.passingScore)];
    if e.passed {
      head := head + [AcceptedLine];
    } else {
      head := head + [ReworkLine(e.percentTenths, e.passingScore)];
    }
    var rows := TaskRows(e.scores);
    var remarks := Recommendations(e.scores);
    var notes := RemarkLines(remarks);
    var tools := [Flake8Line(linters.Flake8ScoreField()), PylintLine(linters.PylintScoreField())];
    JoinedSummary(head, rows, notes, tools, e.scores, remarks);
    report := head + rows + notes + tools;
    assert |remarks| >= 1 by {
      if remarks == [] {
        assert NoRemarks !in remarks;
      }
    }
    assert report[..3] == head[..3];
  }

  /** What `main` prints and returns once the aggregation has run: no
      report after a division by zero, otherwise the report; the exit code is
      0 exactly when the report carries the "accepted" line. */
  method Finish(r: Result<Evaluation, Crash>, linters: LintersRecord)
    returns (report: Option<seq<SummaryLine>>, exitCode: int)
    ensures report.None? <==> r.Err?
    ensures r.Ok? ==> IsSummary(report.value, r.value, linters)
    ensures exitCode == ExitCode(r)
    ensures exitCode == 0 <==> report.Some? && AcceptedLine in report.value
  {
    if r.Err? {
      return None, 1;
    }
    var lines := BuildReport(r.value, linters);
    report := Some(lines);
    exitCode := if r.value.passed then 0 else 1;
  }

  /** The whole script on its inputs. */
  method Summarize(tasksFile: Option<TasksConfig>, lintersFile: Option<LintersRecord>, pytest: map<string, int>)
    returns (report: Option<seq<SummaryLine>>, exitCode: int)
    ensures report.None? <==> LoadTasks(tasksFile).maxTotalScore == 0
    ensures exitCode == ExitCode(Evaluate(LoadTasks(tasksFile), LoadLinterResults(lintersFile), pytest))
    ensures report.Some? ==> IsSummary(report.value, Evaluate(LoadTasks(tasksFile), LoadLinterResults(lintersFile), pytest).value,
                                       LoadLinterResults(lintersFile))
    ensures exitCode == 0 <==> report.Some? && AcceptedLine in report.value
  {
    var linters := LoadLinterResults(lintersFile);
    report, exitCode := Finish(Evaluate(LoadTasks(tasksFile), linters, pytest), linters);
  }
}
