/** `tools/generate_summary_1.py`: the structure report. It probes the
    project folder for the four required scripts, lists the linter findings
    (at most 25 per tool, then a count of the rest) when everything is in
    place, closes with a three-way verdict, and exits with 0 exactly when
    the folder and all four scripts exist. The filesystem is given as a
    flag for the folder and the set of names present in it. */
module StructureSummary {
  import opened Wrappers
  import opened CheckLinters

  /** The keys of the `files` dictionary, in insertion order. */
  const RequiredFiles: seq<string> := ["run_chromium.py", "run_firefox.py", "run_webkit.py", "info_headless.py"]

  /** `all(files.values())`. */
  predicate AllFilesExist(files: map<string, bool>) {
    forall f :: f in files ==> files[f]
  }

  /** The flags the probe leaves: a script counts as present only inside
      an existing folder. */
  function ProbedFiles(hasProject: bool, present: set<string>): (files: map<string, bool>)
    ensures files.Keys == set f | f in RequiredFiles
  {
    map f | f in RequiredFiles :: hasProject && f in present
  }

  /** The `files` dictionary: every flag starts false and, only when the
      folder exists, each is set in turn to whether that script is in it. */
  method ProbeFiles(hasProject: bool, present: set<string>) returns (files: map<string, bool>)
    ensures files == ProbedFiles(hasProject, present)
    ensures files.Keys == set f | f in RequiredFiles
    ensures forall f :: f in files ==> files[f] == (hasProject && f in present)
    ensures AllFilesExist(files) <==> hasProject && forall f :: f in RequiredFiles ==> f in present
    ensures AllFilesExist(files) ==> hasProject
  {
    files := map["run_chromium.py" := false, "run_firefox.py" := false,
                 "run_webkit.py" := false, "info_headless.py" := false];
    if hasProject {
      var i := 0;
      while i < |RequiredFiles|
        invariant 0 <= i <= |RequiredFiles|
        invariant files.Keys == set f | f in RequiredFiles
        invariant forall k :: 0 <= k < |RequiredFiles| ==>
                    files[RequiredFiles[k]] == (k < i && RequiredFiles[k] in present)
      {
        files := files[RequiredFiles[i] := RequiredFiles[i] in present];
        i := i + 1;
      }
    }
    assert files.Keys == {RequiredFiles[0], RequiredFiles[1], RequiredFiles[2], RequiredFiles[3]};
  }

  /** The linter section is shown only when every script exists and a
      linter record was found. */
  predicate ShowLinterSection(allFilesExist: bool, linters: Option<LintersRecord>) {
    allFilesExist && linters.Some?
  }

  datatype Tool = Flake8 | Pylint

  /** The lines of the report that carry a result; headings, blank lines and
      fixed notes are not modelled. */
  datatype ReportLine =
    | FolderPresent
    | FileRow(name: string, present: bool)
    | FolderMissing
    | LintersHeading
    | ToolHeading(tool: Tool)
    | ScoreLine(score: int)
    | ErrorsLine(errors: ErrorCount)
    | ListHeader
    | Item(index: nat, detail: string)
    | More(count: nat)
    | NoErrors
    | NotAccepted
    | Rework
    | StructureOk
    | StyleOk
    | StyleNeedsFix
  {
    /** One of the closing verdict lines. */
    predicate IsVerdict() {
      NotAccepted? || Rework? || StructureOk? || StyleOk? || StyleNeedsFix?
    }
  }

  /** The exceptions the linter section raises on what `check_linters.py`
      can write: comparing the error text of a failed tool with 0, and
      reading `flake8_errors` from the fallback record. */
  datatype Crash = TypeError(tool: Tool) | KeyError(key: string)

  const ListLimit: nat := 25

  /** The numbered listing of the first 25 details, then, when there were
      more, one line counting the rest. */
  ghost predicate IsListing(lines: seq<ReportLine>, details: seq<string>) {
    var shown := if |details| < ListLimit then |details| else ListLimit;
    && |lines| == ListingLength(details)
    && (forall k :: 0 <= k < shown ==> lines[k] == Item(k + 1, details[k]))
    && (|details| > ListLimit ==> lines[shown] == More(|details| - ListLimit))
  }

  /** The number of lines of the listing. */
  function ListingLength(details: seq<string>): nat {
    (if |details| < ListLimit then |details| else ListLimit) + (if |details| > ListLimit then 1 else 0)
  }

  /** A listing is determined by its details. */
  lemma ListingUnique(a: seq<ReportLine>, b: seq<ReportLine>, details: seq<string>)
    requires IsListing(a, details) && IsListing(b, details)
    ensures a == b
  {
    var shown := if |details| < ListLimit then |details| else ListLimit;
    forall k | 0 <= k < |a|
      ensures a[k] == b[k]
    {
      if k < shown {
        assert a[k] == Item(k + 1, details[k]);
      }
    }
  }

  /** A listing never shows more than 25 findings, and the "more" line
      appears exactly when the details run past 25. */
  lemma ListingBounds(lines: seq<ReportLine>, details: seq<string>)
    requires IsListing(lines, details)
    ensures |lines| <= ListLimit + 1
    ensures (exists k :: 0 <= k < |lines| && lines[k].More?) <==> |details| > ListLimit
  {
    var shown := if |details| < ListLimit then |details| else ListLimit;
    if |details| > ListLimit {
      assert lines[shown].More?;
    } else {
      forall k | 0 <= k < |lines|
        ensures !lines[k].More?
      {
        assert lines[k] == Item(k + 1, details[k]);
      }
    }
  }

  /** `enumerate(details[:25], 1)` and the "... N more" line. */
  method ListDetails(details: seq<string>) returns (lines: seq<ReportLine>)
    ensures IsListing(lines, details)
    ensures forall l :: l in lines ==> l.Item? || l.More?
  {
    var shown := if |details| < ListLimit then details else details[..ListLimit];
    lines := [];
    var i := 0;
    while i < |shown|
      invariant 0 <= i <= |shown|
      invariant |lines| == i
      invariant forall k :: 0 <= k < i ==> lines[k] == Item(k + 1, details[k])
    {
      lines := lines + [Item(i + 1, shown[i])];
      i := i + 1;
    }
    if |details| > ListLimit {
      lines := lines + [More(|details| - ListLimit)];
    }
  }

  /** One tool's part of the linter section: heading, score, error count,
      then the listing when the count is above zero or the "no errors" line
      when it is zero. */
  ghost predicate IsToolSection(lines: seq<ReportLine>, tool: Tool, score: int, errors: ErrorCount, details: seq<string>) {
    && errors.Count?
    && |lines| >= 4 && lines[..3] == [ToolHeading(tool), ScoreLine(score), ErrorsLine(errors)]
    && (errors.n > 0 ==> lines[3] == ListHeader && IsListing(lines[4..], details))
    && (errors.n == 0 ==> lines[3..] == [NoErrors])
  }

  /** The number of lines of one tool's part. */
  function ToolSectionLength(errors: ErrorCount, details: seq<string>): nat {
    if errors.Count? && errors.n > 0 then 4 + ListingLength(details) else 4
  }

  lemma ToolSectionHasLength(lines: seq<ReportLine>, tool: Tool, score: int, errors: ErrorCount, details: seq<string>)
    requires IsToolSection(lines, tool, score, errors, details)
    ensures |lines| == ToolSectionLength(errors, details)
  {
    if errors.n == 0 {
      assert |lines[3..]| == 1;
    }
  }

  /** The whole linter section: its heading, the flake8 part, then the
      pylint part. */
  ghost predicate IsLinterSection(lines: seq<ReportLine>, record: LintersRecord) {
    && record.Full?
    && var f := ToolSectionLength(record.flake8Errors, record.flake8Details);
    && |lines| >= 1 + f && lines[0] == LintersHeading
    && IsToolSection(lines[1..1 + f], Flake8, record.flake8Score, record.flake8Errors, record.flake8Details)
    && IsToolSection(lines[1 + f..], Pylint, record.pylintScore, record.pylintErrors, record.pylintDetails)
  }

  /** A tool's part is determined by the record's three fields. */
  lemma ToolSectionUnique(a: seq<ReportLine>, b: seq<ReportLine>, tool: Tool, score: int, errors: ErrorCount, details: seq<string>)
    requires IsToolSection(a, tool, score, errors, details) && IsToolSection(b, tool, score, errors, details)
    ensures a == b
  {
    if errors.n > 0 {
      ListingUnique(a[4..], b[4..], details);
      assert a == a[..3] + [a[3]] + a[4..] && b == b[..3] + [b[3]] + b[4..];
    } else {
      assert a == a[..3] + a[3..] && b == b[..3] + b[3..];
    }
  }

  /** The linter section is determined by the record. */
  lemma LinterSectionUnique(a: seq<ReportLine>, b: seq<ReportLine>, record: LintersRecord)
    requires IsLinterSection(a, record) && IsLinterSection(b, record)
    ensures a == b
  {
    var f := ToolSectionLength(record.flake8Errors, record.flake8Details);
    ToolSectionUnique(a[1..1 + f], b[1..1 + f], Flake8, record.flake8Score, record.flake8Errors, record.flake8Details);
    ToolSectionUnique(a[1 + f..], b[1 + f..], Pylint, record.pylintScore, record.pylintErrors, record.pylintDetails);
    assert a == [a[0]] + a[1..1 + f] + a[1 + f..] && b == [b[0]] + b[1..1 + f] + b[1 + f..];
  }

  /** One tool's part, written from the record. A count that is the error
      text of a failed run cannot be compared with 0 and raises. */
  method ToolSection(tool: Tool, score: int, errors: ErrorCount, details: seq<string>)
    returns (r: Result<seq<ReportLine>, Crash>)
    ensures r.Err? <==> errors.ErrorText?
    ensures r.Err? ==> r.error == TypeError(tool)
    ensures r.Ok? ==> IsToolSection(r.value, tool, score, errors, details)
    ensures r.Ok? ==> forall l :: l in r.value ==> !l.IsVerdict() && l != LintersHeading
  {
    if errors.ErrorText? {
      return Err(TypeError(tool));
    }
    var lines := [ToolHeading(tool), ScoreLine(score), ErrorsLine(errors)];
    if errors.n > 0 {
      var listing := ListDetails(details);
      lines := lines + [ListHeader] + listing;
      assert lines[4..] == listing;
    } else {
      lines := lines + [NoErrors];
    }
    r := Ok(lines);
  }

  /** The whole linter section. The fallback record carries the score but
      not the error count, so reading the count raises. Otherwise flake8
      comes first, and a failure there stops before pylint. */
  method LinterSection(record: LintersRecord) returns (r: Result<seq<ReportLine>, Crash>)
    ensures r.Err? <==> SectionCrashes(record)
    ensures r.Err? ==> r.error == FirstCrash(record)
    ensures r.Ok? ==> IsLinterSection(r.value, record)
    ensures r.Ok? ==> forall l :: l in r.value ==> !l.IsVerdict()
  {
    if record.Fallback? {
      return Err(KeyError("flake8_errors"));
    }
    var flake8 := ToolSection(Flake8, record.flake8Score, record.flake8Errors, record.flake8Details);
    if flake8.Err? {
      return Err(flake8.error);
    }
    var pylint := ToolSection(Pylint, record.pylintScore, record.pylintErrors, record.pylintDetails);
    if pylint.Err? {
      return Err(pylint.error);
    }
    ToolSectionHasLength(flake8.value, Flake8, record.flake8Score, record.flake8Errors, record.flake8Details);
    var lines := [LintersHeading] + flake8.value + pylint.value;
    assert lines[1..1 + |flake8.value|] == flake8.value && lines[1 + |flake8.value|..] == pylint.value;
    r := Ok(lines);
  }

  /** The linter section raises on the fallback record and on a record in
      which either tool failed. */
  predicate SectionCrashes(record: LintersRecord) {
    record.Fallback? || record.flake8Errors.ErrorText? || record.pylintErrors.ErrorText?
  }

  /** The exception that stops the section, the first in reading order. */
  function FirstCrash(record: LintersRecord): (c: Crash)
    requires SectionCrashes(record)
    ensures c.KeyError? <==> record.Fallback?
    ensures c.KeyError? ==> c.key == "flake8_errors"
    ensures c == TypeError(Flake8) <==> record.Full? && record.flake8Errors.ErrorText?
    ensures c == TypeError(Pylint) <==> record.Full? && record.flake8Errors.Count? && record.pylintErrors.ErrorText?
  {
    if record.Fallback? then KeyError("flake8_errors")
    else if record.flake8Errors.ErrorText? then TypeError(Flake8)
    else TypeError(Pylint)
  }

  /** The closing verdict: no folder, a missing script, or a correct
      structure followed by the style line, which is "ok" exactly when a
      linter record was found and its total reaches 8. */
  function FinalVerdict(hasProject: bool, allFilesExist: bool, linters: Option<LintersRecord>): (v: seq<ReportLine>)
    ensures v == [NotAccepted] <==> !hasProject
    ensures v == [Rework] <==> hasProject && !allFilesExist
    ensures StructureOk in v <==> hasProject && allFilesExist
    ensures StyleOk in v <==> hasProject && allFilesExist && linters.Some? && linters.value.Total() >= 8
    ensures |v| == if hasProject && allFilesExist then 2 else 1
    ensures hasProject && allFilesExist ==> v[0] == StructureOk && (v[1] == StyleOk || v[1] == StyleNeedsFix)
  {
    if !hasProject then [NotAccepted]
    else if !allFilesExist then [Rework]
    else [StructureOk, if linters.Some? && linters.value.Total() >= 8 then StyleOk else StyleNeedsFix]
  }

  /** `sys.exit(0 if (has_project and all_files_exist) else 1)`; an uncaught
      exception ends the script with status 1 before it exits. */
  function ExitCode(hasProject: bool, allFilesExist: bool, crashed: bool): (code: int)
    ensures code == 0 <==> !crashed && hasProject && allFilesExist
    ensures code == 0 || code == 1
  {
    if !crashed && hasProject && allFilesExist then 0 else 1
  }

  /** When the report is written, the exit code is 0 exactly when its
      verdict is "structure correct", whatever the style line says. */
  lemma VerdictMatchesExitCode(hasProject: bool, allFilesExist: bool, linters: Option<LintersRecord>)
    ensures ExitCode(hasProject, allFilesExist, false) == 0 <==> StructureOk in FinalVerdict(hasProject, allFilesExist, linters)
    ensures ExitCode(hasProject, allFilesExist, false) == 0 ==> |FinalVerdict(hasProject, allFilesExist, linters)| == 2
  {
  }

  /** The structure section: the folder line and, when the folder exists,
      one row per script in dictionary order. */
  ghost predicate IsStructureSection(lines: seq<ReportLine>, hasProject: bool, files: map<string, bool>)
    requires forall f :: f in RequiredFiles ==> f in files
  {
    if hasProject then
      && |lines| == 1 + |RequiredFiles| && lines[0] == FolderPresent
      && forall k :: 0 <= k < |RequiredFiles| ==> lines[1 + k] == FileRow(RequiredFiles[k], files[RequiredFiles[k]])
    else lines == [FolderMissing]
  }

  method StructureSection(hasProject: bool, files: map<string, bool>) returns (lines: seq<ReportLine>)
    requires forall f :: f in RequiredFiles ==> f in files
    ensures IsStructureSection(lines, hasProject, files)
    ensures forall l :: l in lines ==> l.FolderPresent? || l.FileRow? || l.FolderMissing?
  {
    if hasProject {
      lines := [FolderPresent];
      var i := 0;
      while i < |RequiredFiles|
        invariant 0 <= i <= |RequiredFiles|
        invariant |lines| == 1 + i && lines[0] == FolderPresent
        invariant forall k :: 0 <= k < i ==> lines[1 + k] == FileRow(RequiredFiles[k], files[RequiredFiles[k]])
        invariant forall l :: l in lines ==> l.FolderPresent? || l.FileRow?
      {
        lines := lines + [FileRow(RequiredFiles[i], files[RequiredFiles[i]])];
        i := i + 1;
      }
    } else {
      lines := [FolderMissing];
    }
  }

  /** What stands between the structure section and the verdict: the
      linter section when it is shown, nothing otherwise. */
  ghost predicate IsShownSection(lines: seq<ReportLine>, allFilesExist: bool, linters: Option<LintersRecord>) {
    if ShowLinterSection(allFilesExist, linters) then IsLinterSection(lines, linters.value) else lines == []
  }

  method ShownSection(allFilesExist: bool, linters: Option<LintersRecord>) returns (r: Result<seq<ReportLine>, Crash>)
    ensures r.Err? <==> ShowLinterSection(allFilesExist, linters) && SectionCrashes(linters.value)
    ensures r.Err? ==> r.error == FirstCrash(linters.value)
    ensures r.Ok? ==> IsShownSection(r.value, allFilesExist, linters)
    ensures r.Ok? ==> (LintersHeading in r.value <==> ShowLinterSection(allFilesExist, linters))
    ensures r.Ok? ==> forall l :: l in r.value ==> !l.IsVerdict()
  {
    if ShowLinterSection(allFilesExist, linters) {
      r := LinterSection(linters.value);
    } else {
      r := Ok([]);
    }
  }

  /** Joining the three parts of a report: only the last part holds verdict
      lines, and only the middle one the linter heading. */
  lemma JoinedReport(head: seq<ReportLine>, section: seq<ReportLine>, verdict: seq<ReportLine>)
    requires forall l :: l in head ==> l.FolderPresent? || l.FileRow? || l.FolderMissing?
    requires forall l :: l in section ==> !l.IsVerdict()
    requires LintersHeading !in verdict
    ensures var all := head + section + verdict;
            && (forall k :: 0 <= k < |all| - |verdict| ==> !all[k].IsVerdict())
            && (LintersHeading in all <==> LintersHeading in section)
            && (StructureOk in all <==> StructureOk in verdict)
  {
    var all := head + section + verdict;
    forall k | 0 <= k < |all| - |verdict|
      ensures !all[k].IsVerdict()
    {
      if k < |head| {
        assert all[k] == head[k] && head[k] in head;
      } else {
        assert all[k] == section[k - |head|] && section[k - |head|] in section;
      }
    }
  }

  /** The report `main` assembles: the structure section, then the linter
      section when it is shown and nothing when it is not, then the
      verdict. */
  ghost predicate IsStructureReport(lines: seq<ReportLine>, hasProject: bool, files: map<string, bool>,
                                    linters: Option<LintersRecord>)
    requires forall f :: f in RequiredFiles ==> f in files
  {
    var h := if hasProject then 1 + |RequiredFiles| else 1;
    var v := FinalVerdict(hasProject, AllFilesExist(files), linters);
    && |lines| >= h + |v|
    && IsStructureSection(lines[..h], hasProject, files)
    && IsShownSection(lines[h..|lines| - |v|], AllFilesExist(files), linters)
    && lines[|lines| - |v|..] == v
  }

  /** The report is determined by the folder flag, the files and the linter record. */
  lemma StructureReportUnique(a: seq<ReportLine>, b: seq<ReportLine>, hasProject: bool,
                              files: map<string, bool>, linters: Option<LintersRecord>)
    requires forall f :: f in RequiredFiles ==> f in files
    requires IsStructureReport(a, hasProject, files, linters) && IsStructureReport(b, hasProject, files, linters)
    ensures a == b
  {
    var h := if hasProject then 1 + |RequiredFiles| else 1;
    var v := FinalVerdict(hasProject, AllFilesExist(files), linters);
    assert a[..h] == b[..h] by {
      StructureSectionUnique(a[..h], b[..h], hasProject, files);
    }
    assert a[h..|a| - |v|] == b[h..|b| - |v|] by {
      if ShowLinterSection(AllFilesExist(files), linters) {
        LinterSectionUnique(a[h..|a| - |v|], b[h..|b| - |v|], linters.value);
      }
    }
    ThreeParts(a, h, |v|);
    ThreeParts(b, h, |v|);
  }

  lemma ThreeParts(a: seq<ReportLine>, h: nat, n: nat)
    requires h + n <= |a|
    ensures a == a[..h] + a[h..|a| - n] + a[|a| - n..]
  {
  }

  lemma StructureSectionUnique(a: seq<ReportLine>, b: seq<ReportLine>, hasProject: bool, files: map<string, bool>)
    requires forall f :: f in RequiredFiles ==> f in files
    requires IsStructureSection(a, hasProject, files) && IsStructureSection(b, hasProject, files)
    ensures a == b
  {
    if hasProject {
      forall k | 0 <= k < |a|
        ensures a[k] == b[k]
      {
        if k > 0 {
          var f := RequiredFiles[k - 1];
          assert a[1 + (k - 1)] == FileRow(f, files[f]) == b[1 + (k - 1)];
        }
      }
    }
  }

  /** The three parts, each as its method leaves it, make up the report. */
  lemma AssembledReport(head: seq<ReportLine>, section: seq<ReportLine>, hasProject: bool,
                        files: map<string, bool>, linters: Option<LintersRecord>)
    requires forall f :: f in RequiredFiles ==> f in files
    requires IsStructureSection(head, hasProject, files)
    requires IsShownSection(section, AllFilesExist(files), linters)
    ensures IsStructureReport(head + section + FinalVerdict(hasProject, AllFilesExist(files), linters), hasProject, files, linters)
  {
    var v := FinalVerdict(hasProject, AllFilesExist(files), linters);
    var all := head + section + v;
    assert all[..|head|] == head;
    assert all[|head|..|all| - |v|] == section;
    assert all[|all| - |v|..] == v;
  }

  method BuildReport(hasProject: bool, files: map<string, bool>, linters: Option<LintersRecord>)
    returns (r: Result<seq<ReportLine>, Crash>)
    requires forall f :: f in RequiredFiles ==> f in files
    ensures r.Err? <==> ShowLinterSection(AllFilesExist(files), linters) && SectionCrashes(linters.value)
    ensures r.Err? ==> r.error == FirstCrash(linters.value)
    ensures r.Ok? ==> IsStructureReport(r.value, hasProject, files, linters)
    ensures r.Ok? ==> (LintersHeading in r.value <==> ShowLinterSection(AllFilesExist(files), linters))
    ensures r.Ok? ==> var v := FinalVerdict(hasProject, AllFilesExist(files), linters);
                      forall k :: 0 <= k < |r.value| - |v| ==> !r.value[k].IsVerdict()
    ensures r.Ok? ==> (StructureOk in r.value <==> hasProject && AllFilesExist(files))
  {
    var head := StructureSection(hasProject, files);
    var s := ShownSection(AllFilesExist(files), linters);
    if s.Err? {
      return Err(s.error);
    }
    var verdict := FinalVerdict(hasProject, AllFilesExist(files), linters);
    JoinedReport(head, s.value, verdict);
    AssembledReport(head, s.value, hasProject, files, linters);
    r := Ok(head + s.value + verdict);
  }

  /** What `main` prints and returns once the files are probed: the
      report, or none when the linter section raised, and the exit code. */
  method Finish(hasProject: bool, files: map<string, bool>, linters: Option<LintersRecord>)
    returns (report: Option<seq<ReportLine>>, exitCode: int)
    requires forall f :: f in RequiredFiles ==> f in files
    ensures report.None? <==> ShowLinterSection(AllFilesExist(files), linters) && SectionCrashes(linters.value)
    ensures exitCode == ExitCode(hasProject, AllFilesExist(files), report.None?)
    ensures report.Some? ==> IsStructureReport(report.value, hasProject, files, linters)
    ensures report.Some? ==> (exitCode == 0 <==> StructureOk in report.value)
  {
    var r := BuildReport(hasProject, files, linters);
    if r.Err? {
      return None, 1;
    }
    report := Some(r.value);
    exitCode := if hasProject && AllFilesExist(files) then 0 else 1;
  }

  /** The whole script on the probed filesystem and the linter record (none
      when `linters_result.json` is missing). */
  method Summarize(hasProject: bool, present: set<string>, linters: Option<LintersRecord>)
    returns (report: Option<seq<ReportLine>>, exitCode: int)
    ensures var allFilesExist := hasProject && forall f :: f in RequiredFiles ==> f in present;
            && (report.None? <==> ShowLinterSection(allFilesExist, linters) && SectionCrashes(linters.value))
            && exitCode == ExitCode(hasProject, allFilesExist, report.None?)
    ensures report.Some? ==> IsStructureReport(report.value, hasProject, ProbedFiles(hasProject, present), linters)
    ensures report.Some? ==> (exitCode == 0 <==> StructureOk in report.value)
  {
    var files := ProbeFiles(hasProject, present);
    report, exitCode := Finish(hasProject, files, linters);
  }

  /** On the records `check_linters.py` writes, as `CheckLinters.Entry`
      models them (a failing `main` followed by a handler that completes),
      the linter section raises exactly when that script itself failed or
      either tool failed. */
  lemma SectionCrashesOnToolFailure(flake8: Invocation, pylint: Invocation, mainRaises: bool)
    ensures SectionCrashes(Entry(flake8, pylint, mainRaises).record) <==> mainRaises || flake8.Raised? || pylint.Raised?
  {
  }

  /** The records `check_linters.py` writes keep at most three details per
      tool, so their listings never reach the "more" line. */
  lemma LintersListingsNeverTruncate(flake8: Invocation, pylint: Invocation, lines: seq<ReportLine>)
    requires IsListing(lines, CheckLinters.MainResult(flake8, pylint).record.flake8Details)
             || IsListing(lines, CheckLinters.MainResult(flake8, pylint).record.pylintDetails)
    ensures |lines| <= 3
    ensures forall k :: 0 <= k < |lines| ==> lines[k].Item?
  {
  }
}
