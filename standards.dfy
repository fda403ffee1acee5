/**
 * The resume standards check: every job metadata match is reported as a
 * CRITICAL missing backslash, a metadata line whose next non-blank line is not
 * an italic headline draws a WARNING, and so does a resume of more than 800
 * words. The prompt prefixes put the standards text in front of an agent's
 * guidelines.
 *
 * The backslash test runs on the matches `finditer` yields over the whole
 * resume, and a match may run over a line break: the title, the spaces before
 * the first bar and the dates' `[^*]+` all take one. The headline test runs
 * line by line. On a single line the pattern is the structure validator's
 * (`SameLinePattern`).
 */
module ResumeStandards {
  import opened Text
  import opened Wrappers
  import ResumeStructure

  // ---------------------------------------------------------------------------
  // Prompt prefixes
  // ---------------------------------------------------------------------------

  /**
   * `get_modification_prompt_prefix` and `get_optimization_prompt_prefix`: the
   * standards text, a blank line, then the agent's guidelines.
   */
  function PromptPrefix(standards: String, guidelines: String): (r: String)
    ensures |r| == |standards| + 2 + |guidelines|
    ensures StartsWith(r, standards) && EndsWith(r, guidelines)
    ensures r[|standards|..|standards| + 2] == "\n\n"
  {
    var r := standards + "\n\n" + guidelines;
    assert r[..|standards|] == standards;
    assert r[|r| - |guidelines|..] == guidelines;
    r
  }

  /** The prefix gives back both of its parts. */
  lemma PromptPrefixParts(standards: String, guidelines: String)
    ensures var r := PromptPrefix(standards, guidelines);
      && r[..|standards|] == standards
      && r[|standards| + 2..] == guidelines
  {
  }

  // ---------------------------------------------------------------------------
  // The metadata pattern over the whole resume
  // ---------------------------------------------------------------------------

  predicate StarAt(l: String, i: int) {
    0 <= i < |l| && l[i] == '*'
  }

  /**
   * The end of the line holding index `i`: the next line break at or after
   * it, or `|t|`. The pattern's `.*` stops there.
   */
  function LineEnd(t: String, i: nat): (e: nat)
    requires i <= |t|
    ensures i <= e <= |t| && (e < |t| ==> t[e] == '\n')
  {
    ResumeStructure.NextChar(t, '\n', i)
  }

  /**
   * `\*\*[^*]+\*\*\s*\|` tried at index `a`: the index of the bar, or -1. The
   * title `[^*]+` and the spaces `\s*` both take line breaks.
   */
  function OpeningBar(t: String, a: nat): (p: int)
    requires a <= |t|
    ensures p >= 0 ==> a + 4 < p < |t| && t[p] == '|' && t[a] == '*' && t[a + 1] == '*'
  {
    var k := ResumeStructure.BoldEnd(t, a);
    if k < 0 then -1
    else
      var p := ResumeStructure.NextNonSpace(t, k + 2);
      if p < |t| && t[p] == '|' then p else -1
  }

  /**
   * `.*\|.*\|` after the bar at `p`: the second of the next two bars, each
   * taken as early as possible, or -1 when the line of `p` ends before it.
   */
  function SecondBar(t: String, p: nat): (q: int)
    requires p < |t|
    ensures q >= 0 ==> p < q < LineEnd(t, p) && t[q] == '|'
  {
    var e := LineEnd(t, p);
    var q1 := ResumeStructure.NextChar(t, '|', p + 1);
    if q1 >= e then -1
    else
      var q2 := ResumeStructure.NextChar(t, '|', q1 + 1);
      if q2 >= e then -1 else q2
  }

  /**
   * The end of a `\*[^*]+\*` that starts at `s`, or -1 when none starts there.
   * The run `[^*]+` takes line breaks.
   */
  function ItalicEnd(l: String, s: nat): (e: int)
    requires s <= |l|
    ensures e >= 0 ==> s + 2 < e <= |l| && StarAt(l, e - 1) && l[s] == '*'
  {
    if s < |l| && l[s] == '*' then
      var t := ResumeStructure.NextChar(l, '*', s + 1);
      if s + 1 < t < |l| then t + 1 else -1
    else -1
  }

  /** The start of the last `\*[^*]+\*` that starts in `[i, j)`, or -1. */
  function LastItalic(t: String, i: nat, j: nat): (s: int)
    requires i <= j <= |t|
    ensures s >= 0 ==> i <= s < j && ItalicEnd(t, s) >= 0
    decreases j - i
  {
    if i == j then -1
    else if ItalicEnd(t, j - 1) >= 0 then j - 1
    else LastItalic(t, i, j - 1)
  }

  /** No `\*[^*]+\*` starts in `[i, j)` after the one `LastItalic` finds. */
  lemma {:induction false} LastItalicIsLast(t: String, i: nat, j: nat, k: nat)
    requires i <= k < j <= |t| && LastItalic(t, i, j) < k
    ensures ItalicEnd(t, k) < 0
    decreases j - i
  {
    if ItalicEnd(t, j - 1) < 0 && k < j - 1 {
      LastItalicIsLast(t, i, j - 1, k);
    }
  }

  /** A `\*[^*]+\*` starting in `[i, j)` makes `LastItalic` find one. */
  lemma {:induction false} ItalicSeen(t: String, i: nat, j: nat, k: nat)
    requires i <= k < j <= |t| && ItalicEnd(t, k) >= 0
    ensures LastItalic(t, i, j) >= k
    decreases j - i
  {
    if ItalicEnd(t, j - 1) < 0 {
      ItalicSeen(t, i, j - 1, k);
    }
  }

  /**
   * `metadata_pattern.match(t, a)`: where the match at `a` ends, or -1 when
   * there is none. The bars and the opening star of the dates are reached by
   * `.*`, so they lie on the line of the first bar; the greedy `.*` leaves the
   * tail to the last `\*[^*]+\*` that starts on that line, whose `[^*]+` may
   * run on past the line break.
   */
  function MatchAt(t: String, a: nat): (e: int)
    requires a <= |t|
    ensures e >= 0 ==> a < e <= |t| && StarAt(t, e - 1)
  {
    var p := OpeningBar(t, a);
    if p < 0 then -1
    else
      var q := SecondBar(t, p);
      if q < 0 then -1
      else
        var s := LastItalic(t, q + 1, LineEnd(t, p));
        if s < 0 then -1 else ItalicEnd(t, s)
  }

  /**
   * A match ends with the last italic run that starts on the line of its
   * bars: none starts between the end of the match and that line's end.
   */
  lemma MatchEndsLast(t: String, a: nat, k: nat)
    requires a <= |t| && MatchAt(t, a) >= 0
    requires MatchAt(t, a) <= k < LineEnd(t, OpeningBar(t, a))
    ensures ItalicEnd(t, k) < 0
  {
    var p := OpeningBar(t, a);
    var q := SecondBar(t, p);
    LastItalicIsLast(t, q + 1, LineEnd(t, p), k);
  }

  /** `\*[^*]+\*` found by the structure validator's scan is a run `LastItalic` sees. */
  lemma {:induction false} ItalicFromFound(l: String, i: nat)
    requires i <= |l| && ResumeStructure.ItalicFrom(l, i)
    ensures LastItalic(l, i, |l|) >= 0
    decreases |l| - i
  {
    var r := ResumeStructure.NextChar(l, '*', i);
    var s := ResumeStructure.NextChar(l, '*', r + 1);
    if s > r + 1 {
      assert ItalicEnd(l, r) >= 0;
      ItalicSeen(l, i, |l|, r);
    } else {
      ItalicFromFound(l, s);
      ItalicSeen(l, i, |l|, LastItalic(l, s, |l|));
    }
  }

  /** A `\*[^*]+\*` starting at `k` is found by the structure validator's scan from any `i` before it. */
  lemma {:induction false} ItalicFromSees(l: String, i: nat, k: nat)
    requires i <= k < |l| && ItalicEnd(l, k) >= 0
    ensures ResumeStructure.ItalicFrom(l, i)
    decreases k - i
  {
    var r := ResumeStructure.NextChar(l, '*', i);
    ResumeStructure.NextCharFirst(l, '*', i);
    assert r <= k;
    if r < k {
      var s := ResumeStructure.NextChar(l, '*', r + 1);
      ResumeStructure.NextCharFirst(l, '*', r + 1);
      assert s <= k;
      if s == r + 1 {
        ItalicFromSees(l, s, k);
      }
    }
  }

  /**
   * On a single line the pattern matches at `a` exactly where the structure
   * validator's `job_metadata_pattern`, the same regular expression, does.
   */
  lemma SameLinePattern(l: String, a: nat)
    requires a <= |l| && '\n' !in l
    ensures MatchAt(l, a) >= 0 <==> ResumeStructure.MetadataAt(l, a)
  {
    var p := OpeningBar(l, a);
    if p >= 0 {
      assert LineEnd(l, p) == |l|;
      var q := SecondBar(l, p);
      assert q == ResumeStructure.ThirdBar(l, a);
      if q >= 0 {
        if ResumeStructure.ItalicFrom(l, q + 1) {
          ItalicFromFound(l, q + 1);
        }
        var s := LastItalic(l, q + 1, |l|);
        if s >= 0 {
          ItalicFromSees(l, q + 1, s);
        }
      }
    }
  }

  /**
   * `metadata_pattern.finditer(t)` from index `i` on: the spans of the
   * matches, left to right, each search resuming where the last match ended.
   */
  function Finditer(t: String, i: nat): (spans: seq<(nat, nat)>)
    requires i <= |t|
    decreases |t| - i
  {
    if i == |t| then []
    else
      var e := MatchAt(t, i);
      if e >= 0 then [(i, e as nat)] + Finditer(t, e) else Finditer(t, i + 1)
  }

  /** The spans are matches, after `i`, left to right and without overlap. */
  predicate MatchSpans(t: String, i: nat, spans: seq<(nat, nat)>) {
    forall k :: 0 <= k < |spans| ==>
      && i <= spans[k].0 < spans[k].1 <= |t|
      && MatchAt(t, spans[k].0) == spans[k].1
      && (k + 1 < |spans| ==> spans[k].1 <= spans[k + 1].0)
  }

  lemma {:induction false} FinditerSpans(t: String, i: nat)
    requires i <= |t|
    ensures MatchSpans(t, i, Finditer(t, i))
    decreases |t| - i
  {
    if i < |t| {
      var e := MatchAt(t, i);
      if e >= 0 {
        FinditerSpans(t, e);
        var rest := Finditer(t, e);
        var spans := [(i, e as nat)] + rest;
        forall k | 0 <= k < |spans|
          ensures i <= spans[k].0 < spans[k].1 <= |t|
          ensures MatchAt(t, spans[k].0) == spans[k].1
          ensures k + 1 < |spans| ==> spans[k].1 <= spans[k + 1].0
        {
          if k > 0 {
            assert spans[k] == rest[k - 1];
          }
        }
      } else {
        FinditerSpans(t, i + 1);
      }
    }
  }

  /** `finditer` yields nothing exactly when the pattern matches nowhere from `i` on. */
  lemma {:induction false} FinditerNoneIff(t: String, i: nat)
    requires i <= |t|
    ensures Finditer(t, i) == [] <==> forall a :: i <= a < |t| ==> MatchAt(t, a) < 0
    decreases |t| - i
  {
    if i < |t| && MatchAt(t, i) < 0 {
      FinditerNoneIff(t, i + 1);
    }
  }

  /**
   * Every index where the pattern matches lies in a span `finditer` yields: it
   * starts one, or an earlier match covers it.
   */
  lemma {:induction false} FinditerCovers(t: String, i: nat, a: nat)
    requires i <= a < |t| && MatchAt(t, a) >= 0
    ensures exists k :: 0 <= k < |Finditer(t, i)| && Finditer(t, i)[k].0 <= a < Finditer(t, i)[k].1
    decreases |t| - i
  {
    var e := MatchAt(t, i);
    if e >= 0 {
      var spans := Finditer(t, i);
      if a < e {
        assert spans[0].0 <= a < spans[0].1;
      } else {
        FinditerCovers(t, e, a);
        var k :| 0 <= k < |Finditer(t, e)| && Finditer(t, e)[k].0 <= a < Finditer(t, e)[k].1;
        assert spans[k + 1] == Finditer(t, e)[k];
      }
    } else {
      FinditerCovers(t, i + 1, a);
    }
  }

  /** The text of each match `finditer` yields over the resume, in order; each ends in a star. */
  function Matches(t: String): (ms: seq<String>)
    ensures |ms| == |Finditer(t, 0)|
    ensures forall k :: 0 <= k < |ms| ==> EndsInStar(ms[k])
  {
    var spans := Finditer(t, 0);
    FinditerSpans(t, 0);
    seq(|spans|, k requires 0 <= k < |spans| => t[spans[k].0..spans[k].1])
  }

  predicate EndsInStar(m: String) {
    |m| > 0 && m[|m| - 1] == '*'
  }

  /** A text ending in a star never ends in a backslash once rstripped. */
  lemma StarNotBackslash(m: String)
    requires EndsInStar(m)
    ensures !EndsWith(RStrip(m), "\\")
  {
    assert RStrip(m) == m;
  }

  /** `text[:50] + "..."`. */
  function Excerpt(text: String): (r: String)
    ensures |r| <= 53 && EndsWith(r, "...")
  {
    var head := if |text| <= 50 then text else text[..50];
    var r := head + "...";
    assert r[|r| - 3..] == "...";
    r
  }

  // ---------------------------------------------------------------------------
  // Issues
  // ---------------------------------------------------------------------------

  datatype Severity = Critical | Warning

  /** The issues the check reports, each rendered to its severity, category and description. */
  datatype StandardsIssue =
    | MissingBackslash(text: String)    // the text of a metadata match
    | MissingHeadline(line: String)     // a metadata line
    | TooLong(words: nat)

  function SeverityOf(x: StandardsIssue): Severity {
    if x.MissingBackslash? then Critical else Warning
  }

  function Category(x: StandardsIssue): String {
    if x.TooLong? then "Length" else "Experience Formatting"
  }

  function Description(x: StandardsIssue): String {
    match x
    case MissingBackslash(m) => "Job metadata missing backslash: " + Excerpt(m)
    case MissingHeadline(line) => "Missing or improperly formatted headline after: " + Excerpt(line)
    case TooLong(n) => "Resume is " + NatToString(n) + " words (target: 500-700, max: 800)"
  }

  /** The CRITICAL issues, in order. */
  function CriticalIssues(issues: seq<StandardsIssue>): (c: seq<StandardsIssue>)
    ensures |c| <= |issues|
  {
    if issues == [] then []
    else
      var last := issues[|issues| - 1];
      CriticalIssues(issues[..|issues| - 1]) + (if SeverityOf(last) == Critical then [last] else [])
  }

  lemma {:induction false} CriticalIssuesAppend(a: seq<StandardsIssue>, b: seq<StandardsIssue>)
    ensures CriticalIssues(a + b) == CriticalIssues(a) + CriticalIssues(b)
    decreases |b|
  {
    if b == [] {
      assert a + b == a;
    } else {
      var b' := b[..|b| - 1];
      assert (a + b)[..|a + b| - 1] == a + b';
      CriticalIssuesAppend(a, b');
    }
  }

  // ---------------------------------------------------------------------------
  // The check
  // ---------------------------------------------------------------------------

  /** The backslash test of one match: the rstripped match text must end in a backslash. */
  function BackslashOf(m: String): seq<StandardsIssue> {
    if EndsWith(RStrip(m), "\\") then [] else [MissingBackslash(m)]
  }

  /** The backslash issues of the matches `ms`, in order. */
  function BackslashIssues(ms: seq<String>): seq<StandardsIssue> {
    if ms == [] then [] else BackslashIssues(ms[..|ms| - 1]) + BackslashOf(ms[|ms| - 1])
  }

  /** `next_line.startswith('*') and next_line.endswith('*') and not next_line.startswith('**')`. */
  predicate Styled(t: String) {
    StartsWith(t, "*") && EndsWith(t, "*") && !StartsWith(t, "**")
  }

  /** The outcome of every test the headline loop applies to one line. */
  datatype StdLine = StdLine(
    line: String,
    atStart: bool,          // `metadata_pattern.match(line)`
    blank: bool,            // `not line.strip()`
    styled: bool)           // `Styled(line.strip())`

  /** The tests on line `l`. */
  function StdLineOf(l: String): StdLine {
    StdLine(l, MatchAt(l, 0) >= 0, AllSpace(l), Styled(Strip(l)))
  }

  function StdLinesOf(lines: seq<String>): (ls: seq<StdLine>)
    ensures |ls| == |lines|
  {
    seq(|lines|, j requires 0 <= j < |lines| => StdLineOf(lines[j]))
  }

  /** The first non-blank line at or after `j`, or `|ls|`. */
  function NextNonBlank(ls: seq<StdLine>, j: nat): (k: nat)
    requires j <= |ls|
    ensures j <= k <= |ls|
    decreases |ls| - j
  {
    if j == |ls| || !ls[j].blank then j else NextNonBlank(ls, j + 1)
  }

  /** The headline warning of line `i`. */
  function HeadlineOf(ls: seq<StdLine>, i: nat): seq<StandardsIssue>
    requires i < |ls|
  {
    if ls[i].atStart then
      var j := NextNonBlank(ls, i + 1);
      if j < |ls| && !ls[j].styled then [MissingHeadline(ls[i].line)] else []
    else []
  }

  /** The headline warnings of the first `n` lines, in order. */
  function HeadlineIssues(ls: seq<StdLine>, n: nat): seq<StandardsIssue>
    requires n <= |ls|
  {
    if n == 0 then [] else HeadlineIssues(ls, n - 1) + HeadlineOf(ls, n - 1)
  }

  const MaxWords: nat := 800

  function LengthIssues(words: nat): seq<StandardsIssue> {
    if words > MaxWords then [TooLong(words)] else []
  }

  datatype StandardsReport = StandardsReport(isValid: bool, issues: seq<StandardsIssue>, wordCount: nat)

  /** The issues in the order the check appends them: backslashes, headlines, length. */
  function IssuesOf(ms: seq<String>, ls: seq<StdLine>, words: nat): seq<StandardsIssue> {
    BackslashIssues(ms) + HeadlineIssues(ls, |ls|) + LengthIssues(words)
  }

  /**
   * The report `validate_resume_against_standards` returns for `resume`: the
   * backslash test runs on the matches over the whole text, the headline test
   * line by line.
   */
  function StandardsOf(resume: String): (r: StandardsReport)
    ensures r.wordCount == WordCount(resume)
    ensures r.isValid <==> CriticalIssues(r.issues) == []
  {
    var issues := IssuesOf(Matches(resume), StdLinesOf(Lines(resume)), WordCount(resume));
    StandardsReport(|CriticalIssues(issues)| == 0, issues, WordCount(resume))
  }

  // ---------------------------------------------------------------------------
  // What the check reports
  // ---------------------------------------------------------------------------

  predicate AllBackslash(b: seq<StandardsIssue>) {
    forall k :: 0 <= k < |b| ==> b[k].MissingBackslash?
  }

  predicate NoBackslash(b: seq<StandardsIssue>) {
    forall k :: 0 <= k < |b| ==> !b[k].MissingBackslash?
  }

  /**
   * Every match fails the backslash test, since it ends in a star: the
   * backslash loop reports one missing backslash per match, with its text, in
   * order.
   */
  lemma {:induction false} EveryMatchReported(ms: seq<String>)
    requires forall k :: 0 <= k < |ms| ==> EndsInStar(ms[k])
    ensures |BackslashIssues(ms)| == |ms|
    ensures forall k :: 0 <= k < |ms| ==> BackslashIssues(ms)[k] == MissingBackslash(ms[k])
  {
    if ms != [] {
      var n := |ms| - 1;
      EveryMatchReported(ms[..n]);
      StarNotBackslash(ms[n]);
      var b := BackslashIssues(ms);
      assert b == BackslashIssues(ms[..n]) + [MissingBackslash(ms[n])];
      forall k | 0 <= k < |ms| ensures b[k] == MissingBackslash(ms[k]) {
        if k < n {
          assert ms[..n][k] == ms[k];
        }
      }
    }
  }

  /** One backslash issue per match ending in a star. */
  lemma {:induction false} BackslashCount(ms: seq<String>)
    requires forall k :: 0 <= k < |ms| ==> EndsInStar(ms[k])
    ensures |BackslashIssues(ms)| == |ms|
  {
    if ms != [] {
      var n := |ms| - 1;
      BackslashCount(ms[..n]);
      StarNotBackslash(ms[n]);
    }
  }

  /** Headline issues are warnings. */
  lemma {:induction false} HeadlineIssuesWarn(ls: seq<StdLine>, n: nat)
    requires n <= |ls|
    ensures forall k :: 0 <= k < |HeadlineIssues(ls, n)| ==> HeadlineIssues(ls, n)[k].MissingHeadline?
  {
    if n > 0 {
      HeadlineIssuesWarn(ls, n - 1);
    }
  }

  /** Issues that are all warnings leave no critical one. */
  lemma {:induction false} WarningsOnly(issues: seq<StandardsIssue>)
    requires NoBackslash(issues)
    ensures CriticalIssues(issues) == []
    decreases |issues|
  {
    if issues != [] {
      var rest := issues[..|issues| - 1];
      assert forall k :: 0 <= k < |rest| ==> rest[k] == issues[k];
      WarningsOnly(rest);
    }
  }

  /** Backslash issues are all critical. */
  lemma {:induction false} BackslashCritical(b: seq<StandardsIssue>)
    requires AllBackslash(b)
    ensures CriticalIssues(b) == b
    decreases |b|
  {
    if b != [] {
      var b' := b[..|b| - 1];
      assert forall k :: 0 <= k < |b'| ==> b'[k] == b[k];
      BackslashCritical(b');
      assert b == b' + [b[|b| - 1]];
    }
  }

  /** The critical issues are the backslash ones: headline and length issues are warnings. */
  lemma CriticalAreBackslash(ms: seq<String>, ls: seq<StdLine>, words: nat)
    ensures CriticalIssues(IssuesOf(ms, ls, words)) == BackslashIssues(ms)
  {
    var b := BackslashIssues(ms);
    var h := HeadlineIssues(ls, |ls|);
    var w := LengthIssues(words);
    BackslashIssuesAll(ms);
    HeadlineIssuesWarn(ls, |ls|);
    WarningsOnly(h);
    WarningsOnly(w);
    BackslashCritical(b);
    CriticalIssuesAppend(b + h, w);
    CriticalIssuesAppend(b, h);
    assert b + [] + [] == b;
  }

  /**
   * The check passes exactly when `metadata_pattern.search(resume)` finds
   * nothing: every match, a well-formed metadata line with its backslash
   * included, is CRITICAL.
   */
  lemma StandardsValidIff(resume: String)
    ensures StandardsOf(resume).isValid <==> forall a :: 0 <= a < |resume| ==> MatchAt(resume, a) < 0
  {
    CriticalAreBackslash(Matches(resume), StdLinesOf(Lines(resume)), WordCount(resume));
    BackslashCount(Matches(resume));
    FinditerNoneIff(resume, 0);
  }

  /** The critical issues are the matches over the whole resume, one each, in `finditer` order. */
  lemma CriticalPerMatch(resume: String)
    ensures var c := CriticalIssues(StandardsOf(resume).issues);
      var ms := Matches(resume);
      |c| == |Finditer(resume, 0)| && forall k :: 0 <= k < |ms| ==> c[k] == MissingBackslash(ms[k])
  {
    CriticalAreBackslash(Matches(resume), StdLinesOf(Lines(resume)), WordCount(resume));
    EveryMatchReported(Matches(resume));
  }

  /** A metadata line with its backslash, as the standards ask for it. */
  const WellFormedLine: String := "**D** | A | B | *1*\\"

  lemma WellFormedLineTitle()
    ensures OpeningBar(WellFormedLine, 0) == 6
  {
    assert ResumeStructure.BoldEnd(WellFormedLine, 0) == 3;
  }

  lemma WellFormedLineEnd()
    ensures LineEnd(WellFormedLine, 6) == |WellFormedLine|
  {
    assert ResumeStructure.NextChar(WellFormedLine, '\n', 14) == 20;
  }

  lemma WellFormedLinePipes()
    ensures ResumeStructure.NextChar(WellFormedLine, '|', 7) == 10
    ensures ResumeStructure.NextChar(WellFormedLine, '|', 11) == 14
  {
  }

  lemma WellFormedLineBars()
    ensures SecondBar(WellFormedLine, 6) == 14
  {
    WellFormedLineEnd();
    WellFormedLinePipes();
  }

  lemma WellFormedLineDates()
    ensures LastItalic(WellFormedLine, 15, 20) == 16 && ItalicEnd(WellFormedLine, 16) == 19
  {
    assert ItalicEnd(WellFormedLine, 16) == 19;
  }

  /** That line, alone, fails the check: its match ends on the closing star of the dates. */
  lemma WellFormedLineFails()
    ensures MatchAt(WellFormedLine, 0) == |WellFormedLine| - 1
    ensures !StandardsOf(WellFormedLine).isValid
  {
    WellFormedLineTitle();
    WellFormedLineEnd();
    WellFormedLineBars();
    WellFormedLineDates();
    StandardsValidIff(WellFormedLine);
  }

  /** Dates that open on the bars' line and close on the next. */
  const CrossLine: String := "**T** | a | b | c *\n*"

  lemma CrossLineTitle()
    ensures OpeningBar(CrossLine, 0) == 6
  {
    assert ResumeStructure.BoldEnd(CrossLine, 0) == 3;
  }

  lemma CrossLineEnd()
    ensures LineEnd(CrossLine, 6) == 19
  {
    assert ResumeStructure.NextChar(CrossLine, '\n', 16) == 19;
    assert ResumeStructure.NextChar(CrossLine, '\n', 11) == 19;
  }

  lemma CrossLineBars()
    ensures SecondBar(CrossLine, 6) == 14
  {
    CrossLineEnd();
    assert ResumeStructure.NextChar(CrossLine, '|', 7) == 10;
    assert ResumeStructure.NextChar(CrossLine, '|', 11) == 14;
  }

  lemma CrossLineDates()
    ensures LastItalic(CrossLine, 15, 19) == 18 && ItalicEnd(CrossLine, 18) == |CrossLine|
  {
    assert ResumeStructure.NextChar(CrossLine, '*', 19) == 20;
  }

  /**
   * A match runs over a line break: the dates `\*[^*]+\*` open on the bars'
   * line and close on the next, so the check fails though the first line
   * alone does not match where the resume does.
   */
  lemma MatchAcrossLines()
    ensures MatchAt(CrossLine, 0) == |CrossLine|
    ensures !StandardsOf(CrossLine).isValid
    ensures MatchAt(CrossLine[..19], 0) < 0
  {
    CrossLineTitle();
    CrossLineEnd();
    CrossLineBars();
    CrossLineDates();
    StandardsValidIff(CrossLine);
    FirstLineAlone();
  }

  lemma FirstLineAlone()
    ensures MatchAt(CrossLine[..19], 0) < 0
  {
    var l := CrossLine[..19];
    assert l == "**T** | a | b | c *";
    assert ResumeStructure.NextChar(l, '*', 19) == 19;
  }

  /** More than 800 words draw exactly one length warning, and it never makes the check fail. */
  lemma LengthWarning(ms: seq<String>, ls: seq<StdLine>, words: nat)
    ensures var issues := IssuesOf(ms, ls, words);
      && (TooLong(words) in issues <==> words > MaxWords)
      && CriticalIssues(LengthIssues(words)) == []
  {
    BackslashIssuesAll(ms);
    HeadlineIssuesWarn(ls, |ls|);
    var b := BackslashIssues(ms);
    var h := HeadlineIssues(ls, |ls|);
    var front := b + h;
    forall k | 0 <= k < |front| ensures !front[k].TooLong? {
      if k < |b| {
        assert front[k] == b[k];
      } else {
        assert front[k] == h[k - |b|];
      }
    }
  }

  /** Backslash issues are backslash issues, whatever the matches. */
  lemma {:induction false} BackslashIssuesAll(ms: seq<String>)
    ensures AllBackslash(BackslashIssues(ms))
  {
    if ms != [] {
      BackslashIssuesAll(ms[..|ms| - 1]);
    }
  }

  /**
   * A line matched at its start whose following lines are all blank draws no
   * headline warning; one followed, after blank lines, by a styled line draws
   * none either, and any other next line draws one.
   */
  lemma {:induction false} HeadlineWarnedIff(ls: seq<StdLine>, i: nat)
    requires i < |ls| && ls[i].atStart
    ensures var j := NextNonBlank(ls, i + 1);
      HeadlineOf(ls, i) != [] <==> j < |ls| && !ls[j].styled
    ensures (forall k :: i < k < |ls| ==> ls[k].blank) ==> HeadlineOf(ls, i) == []
  {
    if forall k :: i < k < |ls| ==> ls[k].blank {
      AllBlankSkipped(ls, i + 1);
    }
  }

  lemma {:induction false} AllBlankSkipped(ls: seq<StdLine>, j: nat)
    requires j <= |ls| && forall k :: j <= k < |ls| ==> ls[k].blank
    ensures NextNonBlank(ls, j) == |ls|
    decreases |ls| - j
  {
    if j < |ls| {
      AllBlankSkipped(ls, j + 1);
    }
  }

  // ---------------------------------------------------------------------------
  // The check as the source runs it
  // ---------------------------------------------------------------------------

  /** The `finditer` loop: one backslash test per match over the whole resume. */
  method CheckBackslashes(resume: String) returns (issues: seq<StandardsIssue>)
    ensures issues == BackslashIssues(Matches(resume))
    ensures |issues| == |Finditer(resume, 0)|
  {
    var ms := Matches(resume);
    issues := [];
    for i := 0 to |ms|
      invariant issues == BackslashIssues(ms[..i])
    {
      assert ms[..i + 1][..i] == ms[..i];
      var line := ms[i];
      if !EndsWith(RStrip(line), "\\") {
        issues := issues + [MissingBackslash(line)];
      }
    }
    TakeAll(ms);
    EveryMatchReported(ms);
  }

  /** The headline loop, with its inner scan over blank lines. */
  method CheckHeadlines(ls: seq<StdLine>) returns (issues: seq<StandardsIssue>)
    ensures issues == HeadlineIssues(ls, |ls|)
  {
    issues := [];
    for i := 0 to |ls|
      invariant issues == HeadlineIssues(ls, i)
    {
      if ls[i].atStart {
        var j := i + 1;
        while j < |ls| && ls[j].blank
          invariant i + 1 <= j <= |ls|
          invariant NextNonBlank(ls, j) == NextNonBlank(ls, i + 1)
          decreases |ls| - j
        {
          j := j + 1;
        }
        if j < |ls| && !ls[j].styled {
          issues := issues + [MissingHeadline(ls[i].line)];
        }
      }
    }
  }

  /** `validate_resume_against_standards`. */
  method ValidateAgainstStandards(resume: String) returns (r: StandardsReport)
    ensures r == StandardsOf(resume)
  {
    var backslashes := CheckBackslashes(resume);
    var ls := StdLinesOf(Lines(resume));
    var headlines := CheckHeadlines(ls);
    var issues := backslashes + headlines;
    var wordCount := WordCount(resume);
    if wordCount > MaxWords {
      issues := issues + [TooLong(wordCount)];
    }
    assert issues == IssuesOf(Matches(resume), ls, wordCount);
    var critical := CriticalIssues(issues);
    r := StandardsReport(|critical| == 0, issues, wordCount);
  }
}
