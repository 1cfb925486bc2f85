/** The static checks run against the student scripts in
    `tests/test_syntax.py`: one check on the syntax tree (the import of
    `sync_playwright`), five regular-expression heuristics over the raw text,
    and the five tests that run them in a fixed order and report the first
    one that fails.

    Each regular expression is given twice: as a ghost predicate that says
    there are positions where the pattern's pieces line up (the meaning of
    `re.search`), and as a compiled scanner; the scanner's contract is the
    equivalence. Case-insensitive patterns are matched against `Lower(code)`;
    lowering changes only ASCII capitals, so tests for whitespace, `(`, `)` and
    the line feed read the same on the lowered text. */
module SyntaxChecks {
  import opened Wrappers
  import opened Text

  // ---------------------------------------------------------------------
  // The syntax tree, as the sequence of nodes `ast.walk` visits
  // ---------------------------------------------------------------------

  /** One imported name, `name as asname`. */
  datatype Alias = Alias(name: string, asname: Option<string>)

  /** The nodes the import check can tell apart. `moduleName` is `None` for a
      purely relative import (`from . import x`); `level` counts its dots. */
  datatype Node =
    | ImportFrom(moduleName: Option<string>, names: seq<Alias>, level: nat)
    | Import(names: seq<Alias>)
    | OtherNode

  const SyncApi: string := "playwright.sync_api"
  const SyncPlaywright: string := "sync_playwright"

  /** Some alias imports the original name `target`, whatever it is renamed to. */
  function ImportsName(names: seq<Alias>, target: string): (b: bool)
    ensures b <==> exists k :: 0 <= k < |names| && names[k].name == target
  {
    if names == [] then false
    else names[0].name == target || ImportsName(names[1..], target)
  }

  /** `has_sync_playwright_import`: the walk meets a `from ... import` node of
      module `playwright.sync_api` one of whose aliases names
      `sync_playwright`. The alias's `as` name and the relative-import level
      play no part, and a plain `import` node never qualifies. */
  function HasSyncPlaywrightImport(walk: seq<Node>): (b: bool)
    ensures b <==> exists i :: 0 <= i < |walk| && walk[i].ImportFrom? && walk[i].moduleName == Some(SyncApi)
                                && exists k :: 0 <= k < |walk[i].names| && walk[i].names[k].name == SyncPlaywright
  {
    if walk == [] then false
    else
      (walk[0].ImportFrom? && walk[0].moduleName == Some(SyncApi) && ImportsName(walk[0].names, SyncPlaywright))
      || HasSyncPlaywrightImport(walk[1..])
  }

  // ---------------------------------------------------------------------
  // `p\.<browser>\.launch\(`
  // ---------------------------------------------------------------------

  function LaunchCall(browser: string): string {
    "p." + browser + ".launch("
  }

  /** `has_browser_launch`: the text `p.<browser>.launch(` occurs somewhere,
      whatever precedes `p` and whatever follows the parenthesis. The browser
      name is taken literally, as the pattern takes an alphanumeric name. */
  function HasBrowserLaunch(code: string, browser: string): (b: bool)
    ensures b <==> exists i :: PrefixAt(code, i, "p." + browser + ".launch(")
  {
    Contains(code, LaunchCall(browser))
  }

  /** The launch check is a search for a substring: a text that already
      passes still passes with anything written before or after it. */
  lemma LaunchSurvivesContext(code: string, browser: string, before: string, after: string)
    requires HasBrowserLaunch(code, browser)
    ensures HasBrowserLaunch(before + code + after, browser)
  {
    OccursInContext(code, LaunchCall(browser), before, after);
  }

  // ---------------------------------------------------------------------
  // `print\s*\([^)]*title\(\)`, case-insensitive
  // ---------------------------------------------------------------------

  /** The pattern matches the lowered text `t` with `print` at `i`, the
      opening parenthesis at `j` and `title()` at `k`. */
  ghost predicate PrintTitleMatchAt(t: string, i: int, j: int, k: int) {
    PrefixAt(t, i, "print") && i + 5 <= j < |t| && AllSpace(t, i + 5, j) && t[j] == '('
    && j + 1 <= k <= |t| && NoChar(t, j + 1, k, ')') && PrefixAt(t, k, "title()")
  }

  ghost predicate PrintTitleMatch(t: string) {
    exists i, j, k :: PrintTitleMatchAt(t, i, j, k)
  }

  /** The deterministic test at one start position: skip the whitespace after
      `print`, require `(`, and look at the text just before the first `)`
      that follows it, which must be the `)` of `title()`. */
  predicate PrintTitleAt(t: string, i: int) {
    PrefixAt(t, i, "print") && CallsTitleAt(t, SkipSpaces(t, i + 5))
  }

  /** `(` at `j`, and the text before the first `)` after it ends in `title(`. */
  predicate CallsTitleAt(t: string, j: int)
    requires 0 <= j <= |t|
  {
    j < |t| && t[j] == '('
    && var m := j + 1 + IndexOfChar(t[j + 1..], ')');
    m < |t| && j + 7 <= m && PrefixAt(t, m - 6, "title(")
  }

  /** The text before the first `)` after `j` is free of `)`, and when it
      ends in `title(` that `)` completes `title()`. */
  lemma CloseParenGivesTitle(t: string, j: int, m: int)
    requires 0 <= j < |t| && m == j + 1 + IndexOfChar(t[j + 1..], ')')
    requires m < |t| && j + 7 <= m && PrefixAt(t, m - 6, "title(")
    ensures NoChar(t, j + 1, m - 6, ')') && PrefixAt(t, m - 6, "title()")
  {
    var rest := t[j + 1..];
    var k := m - 6;
    IndexOfCharIsFirst(rest, ')');
    forall x | j + 1 <= x < k ensures t[x] != ')' {
      assert t[x] == rest[x - (j + 1)];
    }
    assert t[m] == rest[m - (j + 1)] == ')';
    assert t[k..k + 7] == t[k..k + 6] + [t[m]];
  }

  lemma PrintTitleAtSound(t: string, i: int)
    requires PrintTitleAt(t, i)
    ensures exists j, k :: PrintTitleMatchAt(t, i, j, k)
  {
    var j := SkipSpaces(t, i + 5);
    var m := j + 1 + IndexOfChar(t[j + 1..], ')');
    assert PrintTitleMatchAt(t, i, j, m - 6) by {
      CloseParenGivesTitle(t, j, m);
      PrintTitleMatchFrom(t, i, j, m - 6);
    }
  }

  /** The match, from its parts. */
  lemma PrintTitleMatchFrom(t: string, i: int, j: int, k: int)
    requires PrefixAt(t, i, "print") && i + 5 <= j < |t| && AllSpace(t, i + 5, j) && t[j] == '('
    requires PrefixAt(t, k, "title()") && j + 1 <= k && NoChar(t, j + 1, k, ')')
    ensures PrintTitleMatchAt(t, i, j, k)
  {
  }

  /** Of the seven characters of `title()` only the last is `)`. */
  lemma TitleCallParens(t: string, k: int)
    requires PrefixAt(t, k, "title()")
    ensures PrefixAt(t, k, "title(") && t[k + 6] == ')'
    ensures forall x :: k <= x < k + 6 ==> t[x] != ')'
  {
    var w := t[k..k + 7];
    assert w == "title()";
    assert t[k] == w[0] && t[k + 1] == w[1] && t[k + 2] == w[2];
    assert t[k + 3] == w[3] && t[k + 4] == w[4] && t[k + 5] == w[5] && t[k + 6] == w[6];
    assert t[k..k + 6] == w[..6];
  }

  /** With no `)` between `j + 1` and `title()` at `k`, the first `)` after
      `j` closes `title()`. */
  lemma FirstCloseParen(t: string, j: int, k: int)
    requires 0 <= j && j + 1 <= k && PrefixAt(t, k, "title()") && NoChar(t, j + 1, k, ')')
    ensures IndexOfChar(t[j + 1..], ')') == k + 6 - (j + 1)
  {
    TitleCallParens(t, k);
    var rest := t[j + 1..];
    var x := k + 6 - (j + 1);
    assert rest[x] == t[k + 6];
    forall y | 0 <= y < x ensures rest[y] != ')' {
      assert rest[y] == t[y + j + 1];
    }
    IndexOfCharFirst(rest, ')', x);
  }

  lemma PrintTitleAtComplete(t: string, i: int, j: int, k: int)
    requires PrintTitleMatchAt(t, i, j, k)
    ensures PrintTitleAt(t, i)
  {
    SkipSpacesUnique(t, i + 5, j);
    assert CallsTitleAt(t, j) by {
      FirstCloseParen(t, j, k);
      TitleCallParens(t, k);
    }
  }

  /** `has_print_title`: for some `print` (any case), after optional
      whitespace and `(`, `title()` follows with no `)` in between. A `)`
      after the `(` and before `title()`, as in `print(len(x)) ... title()`,
      rules that `print` out. */
  function HasPrintTitle(code: string): (b: bool)
    ensures b <==> PrintTitleMatch(Lower(code))
  {
    var t := Lower(code);
    var f := i => PrintTitleAt(t, i);
    var b := ExistsFrom(f, 0, |t| + 1);
    assert b ==> PrintTitleMatch(t) by {
      if b {
        var i :| 0 <= i < |t| + 1 && PrintTitleAt(t, i);
        PrintTitleAtSound(t, i);
      }
    }
    assert PrintTitleMatch(t) ==> b by {
      if PrintTitleMatch(t) {
        var i, j, k :| PrintTitleMatchAt(t, i, j, k);
        PrintTitleAtComplete(t, i, j, k);
        assert 0 <= i < |t| + 1 && f(i);
      }
    }
    b
  }

  // ---------------------------------------------------------------------
  // `headless\s*=\s*True`, case-sensitive
  // ---------------------------------------------------------------------

  /** The pattern matches with `headless` at `i`, `=` at `j` and `True` at `k`. */
  ghost predicate HeadlessMatchAt(s: string, i: int, j: int, k: int) {
    PrefixAt(s, i, "headless") && i + 8 <= j < |s| && AllSpace(s, i + 8, j) && s[j] == '='
    && j + 1 <= k <= |s| && AllSpace(s, j + 1, k) && PrefixAt(s, k, "True")
  }

  ghost predicate HeadlessMatch(s: string) {
    exists i, j, k :: HeadlessMatchAt(s, i, j, k)
  }

  predicate HeadlessAt(s: string, i: int) {
    PrefixAt(s, i, "headless")
    && var j := SkipSpaces(s, i + 8);
    j < |s| && s[j] == '=' && PrefixAt(s, SkipSpaces(s, j + 1), "True")
  }

  lemma HeadlessAtSound(s: string, i: int)
    requires HeadlessAt(s, i)
    ensures exists j, k :: HeadlessMatchAt(s, i, j, k)
  {
    var j := SkipSpaces(s, i + 8);
    assert HeadlessMatchAt(s, i, j, SkipSpaces(s, j + 1));
  }

  lemma HeadlessAtComplete(s: string, i: int, j: int, k: int)
    requires HeadlessMatchAt(s, i, j, k)
    ensures HeadlessAt(s, i)
  {
    SkipSpacesUnique(s, i + 8, j);
    assert s[k] == 'T' by {
      assert s[k..k + 4][0] == s[k];
    }
    SkipSpacesUnique(s, j + 1, k);
  }

  /** `has_headless_mode`: `headless`, optional whitespace, `=`, optional
      whitespace and `True` with a capital T. */
  function HasHeadlessMode(code: string): (b: bool)
    ensures b <==> HeadlessMatch(code)
  {
    var f := i => HeadlessAt(code, i);
    var b := ExistsFrom(f, 0, |code| + 1);
    assert b ==> HeadlessMatch(code) by {
      if b {
        var i :| 0 <= i < |code| + 1 && HeadlessAt(code, i);
        HeadlessAtSound(code, i);
      }
    }
    assert HeadlessMatch(code) ==> b by {
      if HeadlessMatch(code) {
        var i, j, k :| HeadlessMatchAt(code, i, j, k);
        HeadlessAtComplete(code, i, j, k);
        assert 0 <= i < |code| + 1 && f(i);
      }
    }
    b
  }

  /** The headless check is case-sensitive: it passes only on a text that
      contains `True` with a capital T, so `headless=true` alone does not
      pass. */
  lemma HeadlessNeedsCapitalTrue(code: string)
    ensures HasHeadlessMode(code) ==> Occurs(code, "True")
  {
    if HasHeadlessMode(code) {
      var i, j, k :| HeadlessMatchAt(code, i, j, k);
      assert PrefixAt(code, k, "True");
    }
  }

  // ---------------------------------------------------------------------
  // The three outputs of `info_headless.py`
  // ---------------------------------------------------------------------

  /** `[Uu]ser.?Agent` (case-insensitive) at `j` of the lowered text: `user`,
      at most one character other than a line feed, `agent`. */
  predicate UserAgentWordAt(t: string, j: int) {
    PrefixAt(t, j, "user")
    && (PrefixAt(t, j + 4, "agent") || (j + 4 < |t| && t[j + 4] != '\n' && PrefixAt(t, j + 5, "agent")))
  }

  /** `(print|User-Agent).*[Uu]ser.?Agent` matches the lowered text with the
      leading word at `i` and `user` at `j`, both on one line. */
  ghost predicate UserAgentMatchAt(t: string, i: int, j: int) {
    ((PrefixAt(t, i, "print") && i + 5 <= j <= |t| && NoChar(t, i + 5, j, '\n'))
     || (PrefixAt(t, i, "user-agent") && i + 10 <= j <= |t| && NoChar(t, i + 10, j, '\n')))
    && UserAgentWordAt(t, j)
  }

  ghost predicate UserAgentMatch(t: string) {
    exists i, j :: UserAgentMatchAt(t, i, j)
  }

  predicate UserAgentAt(t: string, i: int) {
    (PrefixAt(t, i, "print") && OnLine(t, i + 5, j => UserAgentWordAt(t, j)))
    || (PrefixAt(t, i, "user-agent") && OnLine(t, i + 10, j => UserAgentWordAt(t, j)))
  }

  lemma UserAgentAtSound(t: string, i: int)
    requires UserAgentAt(t, i)
    ensures exists j :: UserAgentMatchAt(t, i, j)
  {
    if PrefixAt(t, i, "print") && OnLine(t, i + 5, j => UserAgentWordAt(t, j)) {
      var j :| i + 5 <= j <= |t| && NoChar(t, i + 5, j, '\n') && UserAgentWordAt(t, j);
      assert UserAgentMatchAt(t, i, j);
    } else {
      var j :| i + 10 <= j <= |t| && NoChar(t, i + 10, j, '\n') && UserAgentWordAt(t, j);
      assert UserAgentMatchAt(t, i, j);
    }
  }

  lemma UserAgentAtComplete(t: string, i: int, j: int)
    requires UserAgentMatchAt(t, i, j)
    ensures UserAgentAt(t, i)
  {
    if PrefixAt(t, i, "print") && i + 5 <= j <= |t| && NoChar(t, i + 5, j, '\n') {
      assert OnLine(t, i + 5, j => UserAgentWordAt(t, j));
    } else {
      assert OnLine(t, i + 10, j => UserAgentWordAt(t, j));
    }
  }

  /** The user-agent part of `has_required_outputs`: the text has
      `navigator.userAgent` (case-sensitive), or a `print` or `User-Agent`
      (any case) followed later on the same line by `user`, at most one
      character, and `agent`. */
  function HasUserAgentOutput(code: string): (b: bool)
    ensures b <==> UserAgentMatch(Lower(code)) || Occurs(code, "navigator.userAgent")
  {
    var t := Lower(code);
    var f := i => UserAgentAt(t, i);
    var b := ExistsFrom(f, 0, |t| + 1);
    assert b ==> UserAgentMatch(t) by {
      if b {
        var i :| 0 <= i < |t| + 1 && UserAgentAt(t, i);
        UserAgentAtSound(t, i);
      }
    }
    assert UserAgentMatch(t) ==> b by {
      if UserAgentMatch(t) {
        var i, j :| UserAgentMatchAt(t, i, j);
        UserAgentAtComplete(t, i, j);
        assert 0 <= i < |t| + 1 && f(i);
      }
    }
    b || Contains(code, "navigator.userAgent")
  }

  /** `first.*second` on the lowered text: `second` begins after `first`
      ends, with no line feed in between. */
  ghost predicate ThenOnLineAt(t: string, first: string, second: string, i: int, j: int) {
    PrefixAt(t, i, first) && i + |first| <= j <= |t| && NoChar(t, i + |first|, j, '\n') && PrefixAt(t, j, second)
  }

  ghost predicate ThenOnLine(t: string, first: string, second: string) {
    exists i, j :: ThenOnLineAt(t, first, second, i, j)
  }

  predicate WordThenOnLineAt(t: string, first: string, second: string, i: int) {
    PrefixAt(t, i, first) && OnLine(t, i + |first|, j => PrefixAt(t, j, second))
  }

  function WordThenOnLine(t: string, first: string, second: string): (b: bool)
    ensures b <==> ThenOnLine(t, first, second)
  {
    var f := i => WordThenOnLineAt(t, first, second, i);
    var b := ExistsFrom(f, 0, |t| + 1);
    assert b ==> ThenOnLine(t, first, second) by {
      if b {
        var i :| 0 <= i < |t| + 1 && WordThenOnLineAt(t, first, second, i);
        var j :| i + |first| <= j <= |t| && NoChar(t, i + |first|, j, '\n') && PrefixAt(t, j, second);
        assert ThenOnLineAt(t, first, second, i, j);
      }
    }
    assert ThenOnLine(t, first, second) ==> b by {
      if ThenOnLine(t, first, second) {
        var i, j :| ThenOnLineAt(t, first, second, i, j);
        assert OnLine(t, i + |first|, j => PrefixAt(t, j, second));
        assert WordThenOnLineAt(t, first, second, i);
        assert 0 <= i < |t| + 1 && f(i);
      }
    }
    b
  }

  /** The viewport part: `viewport` or `size` occurs (any case), or `width`
      and `height` occur on one line in either order. */
  function HasViewportOutput(code: string): (b: bool)
    ensures b <==> var t := Lower(code);
                   Occurs(t, "viewport") || Occurs(t, "size")
                   || ThenOnLine(t, "width", "height") || ThenOnLine(t, "height", "width")
  {
    var t := Lower(code);
    Contains(t, "viewport") || Contains(t, "size")
    || WordThenOnLine(t, "width", "height") || WordThenOnLine(t, "height", "width")
  }

  /** The URL part, `(URL|url|page\.url)` case-insensitive: the third
      alternative adds nothing, so the check holds exactly when the lowered
      text contains `url`. */
  function HasUrlOutput(code: string): (b: bool)
    ensures b <==> var t := Lower(code); Occurs(t, "url") || Occurs(t, "page.url")
    ensures b <==> Occurs(Lower(code), "url")
  {
    var t := Lower(code);
    assert Occurs(t, "page.url") ==> Occurs(t, "url") by {
      if Occurs(t, "page.url") {
        var i :| PrefixAt(t, i, "page.url");
        assert t[i + 5..i + 8] == t[i..i + 8][5..];
        assert PrefixAt(t, i + 5, "url");
      }
    }
    Contains(t, "url")
  }

  /** `has_required_outputs`: the three parts, each decided on its own. */
  function HasRequiredOutputs(code: string): (r: (bool, bool, bool))
    ensures r.0 == HasUserAgentOutput(code)
    ensures r.1 == HasViewportOutput(code)
    ensures r.2 == HasUrlOutput(code)
  {
    (HasUserAgentOutput(code), HasViewportOutput(code), HasUrlOutput(code))
  }

  // ---------------------------------------------------------------------
  // The tests
  // ---------------------------------------------------------------------

  /** A submitted file as `parse_python_file` finds it. */
  datatype SourceFile =
    | NotFound
    | Unreadable(message: string)
    | Unparsable(message: string, line: int)
    | Parsed(walk: seq<Node>, code: string)

  /** Why a test failed: the failing `pytest.fail` or assertion. */
  datatype Failure =
    | FileNotFound(file: string)
    | ReadError(file: string, message: string)
    | SyntaxErrorAt(file: string, message: string, line: int)
    | MissingImport
    | MissingLaunch(browser: string)
    | MissingTitlePrint
    | MissingHeadless
    | MissingUserAgent
    | MissingViewport
    | MissingUrl

  datatype Outcome = Passed | Failed(reason: Failure)

  /** One assertion of a test: whether it holds, and its message. */
  datatype Check = Check(holds: bool, failure: Failure)

  /** A test that asserts its checks one after another stops at the first
      that does not hold and reports its message; it passes when all hold. */
  function FirstFailure(checks: seq<Check>): (r: Outcome)
    ensures r == Passed <==> forall k :: 0 <= k < |checks| ==> checks[k].holds
    ensures r.Failed? ==> exists k :: 0 <= k < |checks| && !checks[k].holds && r.reason == checks[k].failure
                                      && forall m :: 0 <= m < k ==> checks[m].holds
  {
    if checks == [] then Passed
    else if !checks[0].holds then Failed(checks[0].failure)
    else
      var r := FirstFailure(checks[1..]);
      assert r.Failed? ==> exists k :: 1 <= k < |checks| && !checks[k].holds && r.reason == checks[k].failure
                                       && forall m :: 0 <= m < k ==> checks[m].holds by {
        if r.Failed? {
          var k :| 0 <= k < |checks| - 1 && !checks[1..][k].holds && r.reason == checks[1..][k].failure
                   && forall m :: 0 <= m < k ==> checks[1..][m].holds;
          assert forall m :: 1 <= m < k + 1 ==> checks[m] == checks[1..][m - 1];
        }
      }
      r
  }

  /** The failure of `parse_python_file` for a file that is not `Parsed`. */
  function LoadFailure(file: string, f: SourceFile): (r: Failure)
    requires !f.Parsed?
    ensures (r.FileNotFound? || r.ReadError? || r.SyntaxErrorAt?) && r.file == file
    ensures r.FileNotFound? <==> f.NotFound?
    ensures r.SyntaxErrorAt? <==> f.Unparsable?
    ensures !f.NotFound? ==> r.message == f.message
    ensures f.Unparsable? ==> r.line == f.line
  {
    match f
    case NotFound => FileNotFound(file)
    case Unreadable(msg) => ReadError(file, msg)
    case Unparsable(msg, line) => SyntaxErrorAt(file, msg, line)
  }

  const Chromium: string := "chromium"
  const Firefox: string := "firefox"
  const Webkit: string := "webkit"

  function BrowserChecks(walk: seq<Node>, code: string, browser: string): seq<Check> {
    [Check(HasSyncPlaywrightImport(walk), MissingImport),
     Check(HasBrowserLaunch(code, browser), MissingLaunch(browser))]
  }

  /** `test_chromium_syntax`: import, then launch, then the title print. */
  function TestChromiumSyntax(f: SourceFile): (r: Outcome)
    ensures !f.Parsed? ==> r == Failed(LoadFailure("run_chromium.py", f))
    ensures f.Parsed? ==> r == if !HasSyncPlaywrightImport(f.walk) then Failed(MissingImport)
                               else if !HasBrowserLaunch(f.code, Chromium) then Failed(MissingLaunch(Chromium))
                               else if !HasPrintTitle(f.code) then Failed(MissingTitlePrint)
                               else Passed
  {
    if f.Parsed? then
      var checks := BrowserChecks(f.walk, f.code, Chromium) + [Check(HasPrintTitle(f.code), MissingTitlePrint)];
      assert checks[1..] == [checks[1], checks[2]] && checks[1..][1..] == [checks[2]];
      FirstFailure(checks)
    else Failed(LoadFailure("run_chromium.py", f))
  }

  /** `test_firefox_syntax`: import, then launch; no title print is needed. */
  function TestFirefoxSyntax(f: SourceFile): (r: Outcome)
    ensures !f.Parsed? ==> r == Failed(LoadFailure("run_firefox.py", f))
    ensures f.Parsed? ==> r == if !HasSyncPlaywrightImport(f.walk) then Failed(MissingImport)
                               else if !HasBrowserLaunch(f.code, Firefox) then Failed(MissingLaunch(Firefox))
                               else Passed
  {
    if f.Parsed? then
      var checks := BrowserChecks(f.walk, f.code, Firefox);
      assert checks[1..] == [checks[1]];
      FirstFailure(checks)
    else Failed(LoadFailure("run_firefox.py", f))
  }

  /** `test_webkit_syntax`: import, then launch. */
  function TestWebkitSyntax(f: SourceFile): (r: Outcome)
    ensures !f.Parsed? ==> r == Failed(LoadFailure("run_webkit.py", f))
    ensures f.Parsed? ==> r == if !HasSyncPlaywrightImport(f.walk) then Failed(MissingImport)
                               else if !HasBrowserLaunch(f.code, Webkit) then Failed(MissingLaunch(Webkit))
                               else Passed
  {
    if f.Parsed? then
      var checks := BrowserChecks(f.walk, f.code, Webkit);
      assert checks[1..] == [checks[1]];
      FirstFailure(checks)
    else Failed(LoadFailure("run_webkit.py", f))
  }

  /** `test_headless_syntax`: import, then the `headless=True` flag. */
  function TestHeadlessSyntax(f: SourceFile): (r: Outcome)
    ensures !f.Parsed? ==> r == Failed(LoadFailure("info_headless.py", f))
    ensures f.Parsed? ==> r == if !HasSyncPlaywrightImport(f.walk) then Failed(MissingImport)
                               else if !HasHeadlessMode(f.code) then Failed(MissingHeadless)
                               else Passed
  {
    if f.Parsed? then
      var checks := [Check(HasSyncPlaywrightImport(f.walk), MissingImport), Check(HasHeadlessMode(f.code), MissingHeadless)];
      assert checks[1..] == [checks[1]];
      FirstFailure(checks)
    else Failed(LoadFailure("info_headless.py", f))
  }

  /** `test_headless_outputs`: the three outputs, asserted as user agent,
      viewport, URL. It reads only the text, but still fails on a file that
      does not parse, since loading the file parses it. */
  function TestHeadlessOutputs(f: SourceFile): (r: Outcome)
    ensures !f.Parsed? ==> r == Failed(LoadFailure("info_headless.py", f))
    ensures f.Parsed? ==> r == if !HasUserAgentOutput(f.code) then Failed(MissingUserAgent)
                               else if !HasViewportOutput(f.code) then Failed(MissingViewport)
                               else if !HasUrlOutput(f.code) then Failed(MissingUrl)
                               else Passed
  {
    if f.Parsed? then
      var outputs := HasRequiredOutputs(f.code);
      var checks := [Check(outputs.0, MissingUserAgent), Check(outputs.1, MissingViewport), Check(outputs.2, MissingUrl)];
      assert checks[1..] == [checks[1], checks[2]] && checks[1..][1..] == [checks[2]];
      FirstFailure(checks)
    else Failed(LoadFailure("info_headless.py", f))
  }
}
