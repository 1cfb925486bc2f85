/** Character and string operations shared by the checks: ASCII case folding,
    Python's whitespace class, substring search, `str.strip`,
    `str.splitlines` and list filtering. */
module Text {

  /** Python's `str.isspace` restricted to ASCII: tab, line feed, vertical tab,
      form feed, carriage return, the four separator controls 0x1C-0x1F and
      space. The regular-expression class `\s` is the same set. */
  predicate IsSpace(c: char) {
    (9 <= c as int <= 13) || (28 <= c as int <= 31) || c == ' '
  }

  /** ASCII lower-casing of one character. */
  function LowerChar(c: char): char {
    if 'A' <= c <= 'Z' then (c as int + 32) as char else c
  }

  /** The text with every ASCII capital replaced by its small letter: what
      `re.IGNORECASE` compares, restricted to ASCII. */
  function Lower(s: string): (r: string)
    ensures |r| == |s|
    ensures forall i :: 0 <= i < |s| ==> r[i] == LowerChar(s[i])
  {
    seq(|s|, i requires 0 <= i < |s| => LowerChar(s[i]))
  }

  /** `p` occurs in `s` starting at index `i`. */
  predicate PrefixAt(s: string, i: int, p: string) {
    0 <= i && i + |p| <= |s| && s[i..i + |p|] == p
  }

  /** `p` is a substring of `s`: what `re.search` of a plain literal decides. */
  ghost predicate Occurs(s: string, p: string) {
    exists i :: PrefixAt(s, i, p)
  }

  /** Substring search from index `from` onwards. */
  function ContainsFrom(s: string, p: string, from: nat): (b: bool)
    ensures b <==> exists i :: from <= i && PrefixAt(s, i, p)
    decreases |s| - from
  {
    if from + |p| > |s| then false
    else if PrefixAt(s, from, p) then true
    else ContainsFrom(s, p, from + 1)
  }

  function Contains(s: string, p: string): (b: bool)
    ensures b <==> Occurs(s, p)
  {
    ContainsFrom(s, p, 0)
  }

  /** A match of `p` in `s` is also a match in any text that has `s` inside it. */
  lemma OccursInContext(s: string, p: string, before: string, after: string)
    requires Occurs(s, p)
    ensures Occurs(before + s + after, p)
  {
    var i :| PrefixAt(s, i, p);
    var t := before + s + after;
    assert t[|before| + i..|before| + i + |p|] == s[i..i + |p|];
    assert PrefixAt(t, |before| + i, p);
  }

  /** Every character of `s[a..b]` is whitespace. */
  ghost predicate AllSpace(s: string, a: int, b: int)
    requires 0 <= a <= b <= |s|
  {
    forall k :: a <= k < b ==> IsSpace(s[k])
  }

  /** The end of the run of whitespace starting at `i`: what a greedy `\s*`
      consumes. */
  function SkipSpaces(s: string, i: nat): (j: nat)
    requires i <= |s|
    ensures i <= j <= |s|
    ensures AllSpace(s, i, j)
    ensures j == |s| || !IsSpace(s[j])
    decreases |s| - i
  {
    if i < |s| && IsSpace(s[i]) then SkipSpaces(s, i + 1) else i
  }

  /** A whitespace run from `i` followed by a non-space character can only end
      where `SkipSpaces` stops: `\s*X` with a non-space `X` has one way to match. */
  lemma SkipSpacesUnique(s: string, i: nat, j: nat)
    requires i <= j < |s|
    requires AllSpace(s, i, j) && !IsSpace(s[j])
    ensures SkipSpaces(s, i) == j
  {
  }

  /** Index of the first non-space character, `|s|` when there is none. */
  function ContentStart(s: string): (a: nat)
    ensures a <= |s|
    ensures AllSpace(s, 0, a)
    ensures a == |s| || !IsSpace(s[a])
  {
    SkipSpaces(s, 0)
  }

  /** One past the last non-space character at or after `a`, `a` when there is none. */
  function ContentEnd(s: string, a: nat): (b: nat)
    requires a <= |s|
    ensures a <= b <= |s|
    ensures AllSpace(s, b, |s|)
    ensures b == a || !IsSpace(s[b - 1])
    decreases |s|
  {
    if |s| > a && IsSpace(s[|s| - 1]) then
      var b := ContentEnd(s[..|s| - 1], a);
      assert forall k :: b <= k < |s| - 1 ==> s[..|s| - 1][k] == s[k];
      b
    else |s|
  }

  /** Python's `str.strip()` with no argument: the text with leading and
      trailing whitespace removed. */
  function Strip(s: string): (r: string)
    ensures r == [] || (!IsSpace(r[0]) && !IsSpace(r[|r| - 1]))
    ensures exists a, b :: 0 <= a <= b <= |s| && r == s[a..b] && AllSpace(s, 0, a) && AllSpace(s, b, |s|)
  {
    var a := ContentStart(s);
    var b := ContentEnd(s, a);
    s[a..b]
  }

  /** Index of the first `c` in `s`, `|s|` when there is none. */
  function IndexOfChar(s: string, c: char): (k: nat)
    ensures k <= |s|
    ensures k < |s| ==> s[k] == c
  {
    if s == [] then 0
    else if s[0] == c then 0
    else 1 + IndexOfChar(s[1..], c)
  }

  /** No `c` comes before the index `IndexOfChar` returns. */
  lemma {:induction false} IndexOfCharIsFirst(s: string, c: char)
    ensures forall i :: 0 <= i < IndexOfChar(s, c) ==> s[i] != c
  {
    if s != [] && s[0] != c {
      IndexOfCharIsFirst(s[1..], c);
      forall i | 1 <= i < IndexOfChar(s, c) ensures s[i] != c {
        assert s[i] == s[1..][i - 1];
      }
    }
  }

  /** The first `c` is at `x` when `s[x]` is `c` and none comes before it. */
  lemma {:induction false} IndexOfCharFirst(s: string, c: char, x: nat)
    requires x < |s| && s[x] == c
    requires forall y :: 0 <= y < x ==> s[y] != c
    ensures IndexOfChar(s, c) == x
  {
    if x > 0 {
      assert s[0] != c;
      forall y | 0 <= y < x - 1 ensures s[1..][y] != c {
        assert s[1..][y] == s[y + 1];
      }
      IndexOfCharFirst(s[1..], c, x - 1);
    }
  }

  /** Python's `str.splitlines()` for text whose only line break is `\n`: the
      pieces between line feeds; a final line feed does not start an empty
      last line, and the empty text has no lines. Read one character at a
      time: a line feed opens a new line, any other character joins the
      line in front. */
  function SplitLines(s: string): (r: seq<string>)
    ensures s == [] <==> r == []
    ensures forall l :: l in r ==> '\n' !in l
  {
    if s == [] then []
    else if s[0] == '\n' then [""] + SplitLines(s[1..])
    else
      var rest := SplitLines(s[1..]);
      if rest == [] then [[s[0]]]
      else
        assert rest[0] in rest;
        [[s[0]] + rest[0]] + rest[1..]
  }

  /** Each line followed by a line feed: the text a list of lines came from. */
  function Terminated(lines: seq<string>): string {
    if lines == [] then [] else lines[0] + "\n" + Terminated(lines[1..])
  }

  /** The text with a line feed added when it does not already end in one
      (the empty text stays empty). */
  function WithFinalNewline(s: string): string {
    if s == [] || s[|s| - 1] == '\n' then s else s + "\n"
  }

  /** A character in front of the text: the final line feed is decided by
      the rest, unless there is no rest. */
  lemma WithFinalNewlineCons(c: char, t: string)
    requires t != [] || c == '\n'
    ensures WithFinalNewline([c] + t) == [c] + WithFinalNewline(t)
  {
    var s := [c] + t;
    assert s[|s| - 1] == if t == [] then c else t[|t| - 1];
    if t != [] && t[|t| - 1] != '\n' {
      assert s + "\n" == [c] + (t + "\n");
    }
  }

  /** Splitting loses nothing but a missing final line feed: re-joining the
      lines, each with its line feed, gives back the text, with a line feed
      added when it did not already end in one. */
  lemma {:induction false} SplitLinesRoundTrip(s: string)
    ensures Terminated(SplitLines(s)) == WithFinalNewline(s)
  {
    if s != [] {
      var rest := SplitLines(s[1..]);
      SplitLinesRoundTrip(s[1..]);
      assert s == [s[0]] + s[1..];
      if s[0] == '\n' {
        TerminatedCons("", rest);
        WithFinalNewlineCons(s[0], s[1..]);
      } else if rest == [] {
        assert Terminated([[s[0]]]) == [s[0]] + "\n" + Terminated([]);
      } else {
        TerminatedCons([s[0]] + rest[0], rest[1..]);
        assert rest == [rest[0]] + rest[1..];
        TerminatedCons(rest[0], rest[1..]);
        WithFinalNewlineCons(s[0], s[1..]);
      }
    }
  }

  lemma TerminatedCons(line: string, lines: seq<string>)
    ensures Terminated([line] + lines) == line + "\n" + Terminated(lines)
  {
    assert ([line] + lines)[0] == line && ([line] + lines)[1..] == lines;
  }

  /** The lines of `s` that satisfy `keep`, in their original order: a list
      comprehension with an `if` filter. */
  function Filter(keep: string -> bool, s: seq<string>): (r: seq<string>)
    ensures |r| <= |s|
    ensures forall x :: x in r <==> x in s && keep(x)
  {
    if s == [] then []
    else
      assert s == [s[0]] + s[1..];
      (if keep(s[0]) then [s[0]] else []) + Filter(keep, s[1..])
  }

  /** Filtering keeps every kept line as often as it occurs and drops every
      other line entirely: no deduplication. */
  lemma {:induction false} FilterCounts(keep: string -> bool, s: seq<string>, x: string)
    ensures multiset(Filter(keep, s))[x] == if keep(x) then multiset(s)[x] else 0
  {
    if s != [] {
      FilterCounts(keep, s[1..], x);
      assert s == [s[0]] + s[1..];
      assert multiset(s) == multiset([s[0]]) + multiset(s[1..]);
    }
  }

  /** Filtering keeps the relative order: it distributes over concatenation. */
  lemma {:induction false} FilterAppend(keep: string -> bool, a: seq<string>, b: seq<string>)
    ensures Filter(keep, a + b) == Filter(keep, a) + Filter(keep, b)
    decreases |a|
  {
    if a == [] {
      assert a + b == b;
    } else {
      var head := if keep(a[0]) then [a[0]] else [];
      assert (a + b)[0] == a[0] && (a + b)[1..] == a[1..] + b;
      assert Filter(keep, a + b) == head + Filter(keep, a[1..] + b);
      FilterAppend(keep, a[1..], b);
      assert Filter(keep, a) == head + Filter(keep, a[1..]);
    }
  }

  /** `s[:n]` in Python: the first `n` elements, or all of them when there are fewer. */
  function Take<T>(s: seq<T>, n: nat): (r: seq<T>)
    ensures |r| == if |s| < n then |s| else n
    ensures r <= s
  {
    if |s| < n then s else s[..n]
  }

  /** Some index in `[from, bound)` satisfies `f`: the "try every start
      position" loop of a regular-expression search. */
  function ExistsFrom(f: int -> bool, from: int, bound: int): (b: bool)
    ensures b <==> (exists i :: from <= i < bound && f(i))
    decreases bound - from
  {
    if from >= bound then false
    else if f(from) then true
    else ExistsFrom(f, from + 1, bound)
  }

  /** No character of `s[a..b]` is `c`. */
  ghost predicate NoChar(s: string, a: int, b: int, c: char)
    requires 0 <= a <= b <= |s|
  {
    forall m :: a <= m < b ==> s[m] != c
  }

  /** Some position `j`, reachable from `from` without crossing a line feed,
      satisfies `at`: what `.*X` decides after a match ending at `from`
      (`.` matches anything but a line feed). */
  function OnLine(s: string, from: nat, at: int -> bool): (b: bool)
    requires from <= |s|
    ensures b <==> exists j :: from <= j <= |s| && NoChar(s, from, j, '\n') && at(j)
    decreases |s| - from
  {
    if at(from) then true
    else if from == |s| || s[from] == '\n' then false
    else OnLine(s, from + 1, at)
  }
}
