/**
 * The resume structure validator: inside an Experience section every job
 * metadata line (`**Title** | Company | Place | *Dates*`) must end in a
 * backslash and be followed directly by an italic headline line. The fixer
 * appends missing backslashes, drops blank lines after a metadata line and
 * inserts missing headlines (recovered from the original resume, else a
 * placeholder); the checker only reports.
 *
 * The three regular expressions are written out as predicates over the
 * characters of a line; a line never holds a newline, since every line comes
 * from splitting on "\n".
 */
module ResumeStructure {
  import opened Text
  import opened Wrappers

  // ---------------------------------------------------------------------------
  // Character scans used by the patterns
  // ---------------------------------------------------------------------------

  /** The index of the first `c` at or after `i`, or `|s|` when there is none. */
  function NextChar(s: String, c: char, i: nat): (k: nat)
    requires i <= |s|
    ensures i <= k <= |s|
    ensures k < |s| ==> s[k] == c
    decreases |s| - i
  {
    if i == |s| || s[i] == c then i else NextChar(s, c, i + 1)
  }

  /** No `c` comes before the one `NextChar` finds. */
  lemma {:induction false} NextCharFirst(s: String, c: char, i: nat)
    requires i <= |s|
    ensures forall m :: i <= m < NextChar(s, c, i) ==> s[m] != c
    decreases |s| - i
  {
    if i < |s| && s[i] != c {
      NextCharFirst(s, c, i + 1);
    }
  }

  /** The index of the first non-whitespace character at or after `i`, or `|s|`. */
  function NextNonSpace(s: String, i: nat): (k: nat)
    requires i <= |s|
    ensures i <= k <= |s|
    decreases |s| - i
  {
    if i == |s| || !IsSpace(s[i]) then i else NextNonSpace(s, i + 1)
  }

  // ---------------------------------------------------------------------------
  // The patterns
  // ---------------------------------------------------------------------------

  /**
   * `\*\*[^*]+\*\*` tried at index `a`: the index of the closing `**`, or -1.
   * The run `[^*]+` stops at the first star, so the match is unique.
   */
  function BoldEnd(l: String, a: nat): (k: int)
    requires a <= |l|
    ensures k >= 0 ==>
      a + 2 < k && k + 2 <= |l| && l[a] == '*' && l[a + 1] == '*' && l[k] == '*' && l[k + 1] == '*'
  {
    if a + 2 <= |l| && l[a] == '*' && l[a + 1] == '*' then
      var k := NextChar(l, '*', a + 2);
      if k > a + 2 && k + 1 < |l| && l[k + 1] == '*' then
        k
      else -1
    else -1
  }

  /** The bold text `[^*]+` holds no star. */
  lemma BoldEndNoStar(l: String, a: nat)
    requires a <= |l| && BoldEnd(l, a) >= 0
    ensures '*' !in l[a + 2..BoldEnd(l, a)]
  {
    NextCharFirst(l, '*', a + 2);
    var k := BoldEnd(l, a);
    var t := l[a + 2..k];
    forall j | 0 <= j < |t| ensures t[j] != '*' {
      assert t[j] == l[a + 2 + j];
    }
  }

  /** `\*[^*]+\*` matches somewhere at or after index `i`. */
  predicate ItalicFrom(l: String, i: nat)
    requires i <= |l|
    decreases |l| - i
  {
    var r := NextChar(l, '*', i);
    r < |l| && var s := NextChar(l, '*', r + 1);
    s < |l| && (s > r + 1 || ItalicFrom(l, s))
  }

  /**
   * The third `|` of `\*\*[^*]+\*\*\s*\|.*\|.*\|` at `a`, each bar taken as
   * early as possible, or -1 when the bold title and three bars are not there.
   */
  function ThirdBar(l: String, a: nat): (q: int)
    requires a <= |l|
    ensures q >= 0 ==> a < q < |l|
  {
    var k := BoldEnd(l, a);
    if k < 0 then -1
    else
      var p := NextNonSpace(l, k + 2);
      if p == |l| || l[p] != '|' then -1
      else
        var q1 := NextChar(l, '|', p + 1);
        if q1 == |l| then -1
        else
          var q2 := NextChar(l, '|', q1 + 1);
          if q2 == |l| then -1 else q2
  }

  /**
   * The metadata pattern `\*\*[^*]+\*\*\s*\|.*\|.*\|.*\*[^*]+\*` matches at
   * index `a`. Taking each `|` as early as possible leaves the longest tail for
   * the final `*...*`, so the earliest choice decides whether a match exists.
   */
  predicate MetadataAt(l: String, a: nat)
    requires a <= |l|
  {
    var q := ThirdBar(l, a);
    q >= 0 && ItalicFrom(l, q + 1)
  }

  /** `job_metadata_pattern.search(line)` from index `a` on. */
  predicate MetadataFrom(l: String, a: nat)
    requires a <= |l|
    decreases |l| - a
  {
    a < |l| && (MetadataAt(l, a) || MetadataFrom(l, a + 1))
  }

  predicate IsMetadataLine(l: String) {
    MetadataFrom(l, 0)
  }

  /** `^\*[^*]+\*$` matched against a stripped line (which never ends in a newline). */
  predicate IsHeadline(h: String) {
    |h| >= 3 && h[0] == '*' && h[|h| - 1] == '*' && forall m :: 0 < m < |h| - 1 ==> h[m] != '*'
  }

  /** The group of the first match of `\*\*([^*]+)\*\*` at or after `a`. */
  function TitleFrom(l: String, a: nat): (t: Option<String>)
    requires a <= |l|
    ensures t.Some? ==> '*' !in t.value
    decreases |l| - a
  {
    if a == |l| then None
    else
      var k := BoldEnd(l, a);
      if k >= 0 then BoldEndNoStar(l, a); Some(l[a + 2..k]) else TitleFrom(l, a + 1)
  }

  /** `_extract_job_title`: the stripped bold text, or "Unknown Job". */
  function JobTitle(l: String): String {
    match TitleFrom(l, 0)
    case Some(g) => Strip(g)
    case None => "Unknown Job"
  }

  const SectionHeaders: seq<String> := [
    "## Experience", "## Professional Experience", "## Work Experience",
    "## Education", "## Skills", "## Technical Skills",
    "## Certifications", "## Key Achievements", "## Summary",
    "## Projects", "## Publications"]

  /** Some header of `headers` occurs in `stripped` and contains `name`, case-insensitively. */
  predicate NamedHeaderIn(stripped: String, name: String, headers: seq<String>)
    decreases |headers|
  {
    headers != []
    && ((Contains(stripped, headers[0]) && Contains(Lower(headers[0]), Lower(name)))
        || NamedHeaderIn(stripped, name, headers[1..]))
  }

  /** `_is_section_header(line, section_name)` as written; the empty name stands for `None`. */
  predicate IsSectionHeader(line: String, name: String) {
    var stripped := Strip(line);
    if name != [] then NamedHeaderIn(stripped, name, SectionHeaders)
    else stripped in SectionHeaders || StartsWith(stripped, "## ")
  }


  /** `_is_job_headline(line.strip())`. */
  predicate IsHeadlineLine(line: String) {
    IsHeadline(Strip(line))
  }

  /**
   * The outcome of every test the loops apply to one line. The tests are pure
   * functions of the line, so each line is classified once and the loops read
   * the outcome.
   */
  datatype Kind = Kind(
    experienceHeader: bool,  // `_is_section_header(line, "Experience")`
    anyHeader: bool,         // `_is_section_header(line)`
    metadata: bool,          // `_is_job_metadata_line(line)`
    blank: bool,             // `not line.strip()`
    headline: bool,          // `_is_job_headline(line.strip())`
    title: String,           // `_extract_job_title(line)`
    backslash: bool)         // `line.rstrip().endswith('\\')`

  function KindOf(line: String): Kind {
    Kind(IsSectionHeader(line, "Experience"), IsSectionHeader(line, ""), IsMetadataLine(line),
         Strip(line) == [], IsHeadlineLine(line), JobTitle(line), EndsWith(RStrip(line), "\\"))
  }

  function KindsOf(lines: seq<String>): (kinds: seq<Kind>)
    ensures |kinds| == |lines|
  {
    seq(|lines|, j requires 0 <= j < |lines| => KindOf(lines[j]))
  }

  /** No two adjacent stars from `a` on: the metadata pattern cannot start anywhere there. */
  lemma {:induction false} NoDoubleStar(l: String, a: nat)
    requires a <= |l|
    requires forall m :: a <= m && m + 1 < |l| ==> !(l[m] == '*' && l[m + 1] == '*')
    ensures !MetadataFrom(l, a)
    decreases |l| - a
  {
    if a < |l| {
      NoDoubleStar(l, a + 1);
    }
  }

  /** No two adjacent stars anywhere in `s`. */
  predicate NoStarPair(s: String) {
    forall m :: 0 <= m && m + 1 < |s| ==> !(s[m] == '*' && s[m + 1] == '*')
  }

  /** A headline holds stars only at its two ends, so never two adjacent ones. */
  lemma HeadlineNoStarPair(h: String)
    requires IsHeadline(h) || h == []
    ensures NoStarPair(h)
  {
  }

  /** Whitespace around a slice adds no star: no pair in the slice means none in the line. */
  lemma NoStarPairAround(line: String, off: nat, h: String)
    requires off + |h| <= |line| && h == line[off..off + |h|]
    requires AllSpace(line[..off]) && AllSpace(line[off + |h|..])
    requires NoStarPair(h)
    ensures NoStarPair(line)
  {
    var b := off + |h|;
    forall k | 0 <= k < |line| && !(off <= k < b) ensures line[k] != '*' {
      if k < off {
        assert IsSpace(line[..off][k]);
      } else {
        assert IsSpace(line[b..][k - b]);
      }
    }
    forall m | 0 <= m && m + 1 < |line| ensures !(line[m] == '*' && line[m + 1] == '*') {
      if off <= m && m + 1 < b {
        assert line[m] == h[m - off] && line[m + 1] == h[m + 1 - off];
      }
    }
  }

  /** A line whose stripped text is a headline, or blank, is no metadata line. */
  lemma HeadlineOrBlankNotMetadata(line: String)
    requires IsHeadlineLine(line) || Strip(line) == []
    ensures !IsMetadataLine(line)
  {
    var h := Strip(line);
    StripSlice(line);
    HeadlineNoStarPair(h);
    NoStarPairAround(line, StripOffset(line), h);
    NoDoubleStar(line, 0);
  }

  lemma HeadersNonEmpty()
    ensures forall k :: 0 <= k < |SectionHeaders| ==> |SectionHeaders[k]| > 0 && SectionHeaders[k][0] == '#'
  {
  }

  /** No header of the list occurs in the empty line. */
  lemma {:induction false} NoHeaderInEmpty(name: String, headers: seq<String>)
    requires forall k :: 0 <= k < |headers| ==> |headers[k]| > 0
    ensures !NamedHeaderIn([], name, headers)
    decreases |headers|
  {
    if headers != [] {
      NoHeaderInEmpty(name, headers[1..]);
    }
  }

  /**
   * Headline and blank lines are never section headers nor metadata lines, and
   * a blank line is no Experience header: the loops treat them as plain lines.
   */
  predicate Plain(k: Kind) {
    && (k.headline || k.blank ==> !k.anyHeader && !k.metadata)
    && (k.blank ==> !k.experienceHeader)
  }

  predicate Consistent(kinds: seq<Kind>) {
    forall j :: 0 <= j < |kinds| ==> Plain(kinds[j])
  }

  /** A headline or blank line is no section header. */
  lemma HeadlineOrBlankNotHeader(line: String)
    requires IsHeadlineLine(line) || Strip(line) == []
    ensures !IsSectionHeader(line, "")
  {
    StarOrEmptyNotHeader(Strip(line));
  }

  /** Text that is empty or starts with a star is neither a listed header nor a `## ` line. */
  lemma StarOrEmptyNotHeader(h: String)
    requires h == [] || h[0] == '*'
    ensures h !in SectionHeaders && !StartsWith(h, "## ")
  {
    if |h| >= 3 {
      assert h[..3][0] == '*';
    }
    HeadersNonEmpty();
    forall k | 0 <= k < |SectionHeaders| ensures SectionHeaders[k] != h {
      if h != [] {
        assert SectionHeaders[k][0] != h[0];
      }
    }
  }

  /** A blank line is no Experience header. */
  lemma BlankNotExperienceHeader(line: String)
    requires Strip(line) == []
    ensures !IsSectionHeader(line, "Experience")
  {
    HeadersNonEmpty();
    NoHeaderInEmpty("Experience", SectionHeaders);
  }

  lemma KindOfPlain(line: String)
    ensures Plain(KindOf(line))
  {
    if IsHeadlineLine(line) || Strip(line) == [] {
      HeadlineOrBlankNotMetadata(line);
      HeadlineOrBlankNotHeader(line);
    }
    if Strip(line) == [] {
      BlankNotExperienceHeader(line);
    }
  }

  lemma KindsOfConsistent(lines: seq<String>)
    ensures Consistent(KindsOf(lines))
  {
    forall j | 0 <= j < |lines| ensures Plain(KindsOf(lines)[j]) {
      KindOfPlain(lines[j]);
    }
  }

  /** A line is marked as a headline only when it passes the headline test. */
  lemma KindsOfMarksHeadlines(lines: seq<String>)
    ensures forall j :: 0 <= j < |lines| && KindsOf(lines)[j].headline ==> IsHeadlineLine(lines[j])
  {
  }

  /** The first non-blank line at or after `i`, or `|kinds|`. */
  function SkipBlank(kinds: seq<Kind>, i: nat): (j: nat)
    requires i <= |kinds|
    ensures i <= j <= |kinds|
    ensures j < |kinds| ==> !kinds[j].blank
    decreases |kinds| - i
  {
    if i == |kinds| || !kinds[i].blank then i else SkipBlank(kinds, i + 1)
  }

  /** Every line the scan passes over is blank. */
  lemma {:induction false} SkipBlankSkipsBlanks(kinds: seq<Kind>, i: nat, m: nat)
    requires i <= |kinds| && i <= m < SkipBlank(kinds, i)
    ensures kinds[m].blank
    decreases m - i
  {
    if m > i {
      SkipBlankSkipsBlanks(kinds, i + 1, m);
    }
  }

  /** The inner `while j < len(lines) and not lines[j].strip()` scan, shared by the three loops. */
  method SkipBlankLines(kinds: seq<Kind>, start: nat) returns (j: nat, blankCount: nat)
    requires start <= |kinds|
    ensures j == SkipBlank(kinds, start) && blankCount == j - start
  {
    j := start;
    blankCount := 0;
    while j < |kinds| && kinds[j].blank
      invariant start <= j <= |kinds| && blankCount == j - start
      invariant SkipBlank(kinds, j) == SkipBlank(kinds, start)
      decreases |kinds| - j
    {
      blankCount := blankCount + 1;
      j := j + 1;
    }
  }

  /**
   * Whether line `i` is a metadata line to check, and the section flag after
   * the header tests: an Experience header opens the section, any other header
   * closes it.
   */
  function Classify(kinds: seq<Kind>, i: nat, inExp: bool): (r: (bool, bool))
    requires i < |kinds|
  {
    var k := kinds[i];
    if k.experienceHeader then (false, true)
    else
      var inExp' := if k.anyHeader && inExp then false else inExp;
      (inExp' && k.metadata, inExp')
  }

  // ---------------------------------------------------------------------------
  // Extracting the original resume's headlines
  // ---------------------------------------------------------------------------

  /** Every value the map holds passes `test`. */
  predicate AllPass(m: map<String, String>, test: String -> bool) {
    forall t :: t in m ==> test(m[t])
  }

  /** Every headline the map holds is an italic headline line once stripped. */
  predicate AllHeadlines(m: map<String, String>) {
    AllPass(m, IsHeadlineLine)
  }

  /**
   * The title-to-headline map built from line `i` on (`for i in range(len - 1)`):
   * the first header that leaves the Experience section ends the scan, and a
   * later headline for the same title replaces an earlier one.
   */
  function HeadlinesFrom(lines: seq<String>, kinds: seq<Kind>, i: nat, inExp: bool, acc: map<String, String>)
    : (m: map<String, String>)
    requires |kinds| == |lines|
    ensures acc.Keys <= m.Keys
    decreases |lines| - i
  {
    if i + 1 >= |lines| then acc
    else
      var k := kinds[i];
      if k.experienceHeader then HeadlinesFrom(lines, kinds, i + 1, true, acc)
      else if k.anyHeader && inExp then acc
      else if inExp && k.metadata then
        var j := SkipBlank(kinds, i + 1);
        var acc' := if j < |lines| && kinds[j].headline then acc[k.title := lines[j]] else acc;
        HeadlinesFrom(lines, kinds, i + 1, inExp, acc')
      else HeadlinesFrom(lines, kinds, i + 1, inExp, acc)
  }

  /**
   * Only marked lines are recorded: whatever `test` every marked line passes,
   * every recorded headline passes too.
   */
  lemma {:induction false} HeadlinesFromMarked(lines: seq<String>, kinds: seq<Kind>, i: nat, inExp: bool,
                                               acc: map<String, String>, test: String -> bool)
    requires |kinds| == |lines|
    requires forall j :: 0 <= j < |lines| && kinds[j].headline ==> test(lines[j])
    requires AllPass(acc, test)
    ensures AllPass(HeadlinesFrom(lines, kinds, i, inExp, acc), test)
    decreases |lines| - i
  {
    if i + 1 < |lines| {
      var k := kinds[i];
      if k.experienceHeader {
        HeadlinesFromMarked(lines, kinds, i + 1, true, acc, test);
      } else if k.anyHeader && inExp {
      } else if inExp && k.metadata {
        var j := SkipBlank(kinds, i + 1);
        if j < |lines| && kinds[j].headline {
          var acc' := acc[k.title := lines[j]];
          assert AllPass(acc', test);
          HeadlinesFromMarked(lines, kinds, i + 1, inExp, acc', test);
        } else {
          HeadlinesFromMarked(lines, kinds, i + 1, inExp, acc, test);
        }
      } else {
        HeadlinesFromMarked(lines, kinds, i + 1, inExp, acc, test);
      }
    }
  }

  /** The loop of `_extract_job_headlines` over the classified lines. */
  method CollectHeadlines(lines: seq<String>, kinds: seq<Kind>) returns (headlines: map<String, String>)
    requires |kinds| == |lines|
    ensures headlines == HeadlinesFrom(lines, kinds, 0, false, map[])
  {
    headlines := map[];
    var inExp := false;
    for i := 0 to if |lines| > 0 then |lines| - 1 else 0
      invariant HeadlinesFrom(lines, kinds, i, inExp, headlines) == HeadlinesFrom(lines, kinds, 0, false, map[])
    {
      if kinds[i].experienceHeader {
        inExp := true;
        continue;
      } else if kinds[i].anyHeader && inExp {
        inExp := false;
        break;
      }
      if inExp && kinds[i].metadata {
        var title := kinds[i].title;
        var j, _ := SkipBlankLines(kinds, i + 1);
        if j < |lines| && kinds[j].headline {
          headlines := headlines[title := lines[j]];
        }
      }
    }
  }

  /** `_extract_job_headlines`. */
  method ExtractJobHeadlines(resume: String) returns (headlines: map<String, String>)
    ensures var lines := Lines(resume); headlines == HeadlinesFrom(lines, KindsOf(lines), 0, false, map[])
  {
    var lines := Lines(resume);
    headlines := CollectHeadlines(lines, KindsOf(lines));
  }

  /** The headlines to recover from: only a non-empty original resume is read. */
  function OriginalHeadlines(original: Option<String>): map<String, String> {
    if original.Some? && original.value != [] then
      var lines := Lines(original.value);
      HeadlinesFrom(lines, KindsOf(lines), 0, false, map[])
    else map[]
  }

  /** Every headline recovered from the original resume is a headline line. */
  lemma OriginalHeadlinesAreHeadlines(original: Option<String>)
    ensures AllHeadlines(OriginalHeadlines(original))
  {
    if original.Some? && original.value != [] {
      var lines := Lines(original.value);
      KindsOfMarksHeadlines(lines);
      HeadlinesFromMarked(lines, KindsOf(lines), 0, false, map[], IsHeadlineLine);
    }
  }

  // ---------------------------------------------------------------------------
  // Issues and repairs
  // ---------------------------------------------------------------------------

  /**
   * A problem found after a metadata line. `validate_and_fix` and
   * `validate_only` find the same problems and word them differently; the
   * texts below are the ones each of them appends to its issue list.
   */
  datatype Issue =
    | MissingBackslash(title: String)
    | BlankLines(count: nat, title: String)
    | MissingHeadline(title: String)
    | MissingHeadlineAtEnd(title: String)

  /** What `validate_and_fix` did about an issue. */
  datatype Repair =
    | AddedBackslash(title: String)
    | RemovedBlankLines(count: nat, title: String)
    | RecoveredHeadline(title: String)
    | CreatedPlaceholder(title: String)
    | RecoveredHeadlineAtEnd(title: String)

  /** The issue text of `validate_and_fix`. */
  function FixIssueText(x: Issue): String {
    match x
    case MissingBackslash(t) => "Job metadata missing backslash: " + t
    case BlankLines(n, t) => "Found " + NatToString(n) + " blank line(s) between metadata and headline for: " + t
    case MissingHeadline(t) => "CRITICAL" + ": Missing job headline for: " + t
    case MissingHeadlineAtEnd(t) => "CRITICAL" + ": Job metadata at end of file missing headline: " + t
  }

  /** The fix text of `validate_and_fix`. */
  function RepairText(f: Repair): String {
    match f
    case AddedBackslash(t) => "Added backslash to job metadata: " + t
    case RemovedBlankLines(n, t) => "Removed " + NatToString(n) + " blank line(s) after metadata for: " + t
    case RecoveredHeadline(t) => "Recovered missing headline from original for: " + t
    case CreatedPlaceholder(t) => "Created placeholder headline for: " + t
    case RecoveredHeadlineAtEnd(t) => "Recovered missing headline for: " + t
  }

  /** The issue text of `validate_only`. */
  function CheckIssueText(x: Issue): String {
    match x
    case MissingBackslash(t) => "Missing backslash: " + t
    case BlankLines(_, t) => "Blank lines between metadata and headline: " + t
    case MissingHeadline(t) => "CRITICAL" + ": Missing headline for: " + t
    case MissingHeadlineAtEnd(t) => "CRITICAL" + ": Missing headline (EOF) for: " + t
  }

  /** The missing-headline issues are the ones both wordings mark as critical. */
  predicate IsMissingHeadline(x: Issue) {
    x.MissingHeadline? || x.MissingHeadlineAtEnd?
  }

  lemma NotCritical(head: String, rest: String)
    requires |head| > 0 && head[0] != 'C'
    ensures !StartsWith(head + rest, "CRITICAL")
  {
    assert (head + rest)[0] == head[0];
  }

  lemma BlankLinesNotCritical(n: nat, t: String)
    ensures !StartsWith(FixIssueText(BlankLines(n, t)), "CRITICAL")
  {
    var rest := NatToString(n) + " blank line(s) between metadata and headline for: " + t;
    assert FixIssueText(BlankLines(n, t)) == "Found " + rest;
    NotCritical("Found ", rest);
  }

  /** In the words of `validate_and_fix`, an issue starts with "CRITICAL" exactly when a headline is missing. */
  lemma FixWordingCritical(x: Issue)
    ensures StartsWith(FixIssueText(x), "CRITICAL") <==> IsMissingHeadline(x)
  {
    match x
    case MissingBackslash(t) => NotCritical("Job metadata missing backslash: ", t);
    case BlankLines(n, t) => BlankLinesNotCritical(n, t);
    case MissingHeadline(t) => KeepsPrefix("CRITICAL", ": Missing job headline for: " + t, "CRITICAL");
    case MissingHeadlineAtEnd(t) => KeepsPrefix("CRITICAL", ": Job metadata at end of file missing headline: " + t, "CRITICAL");
  }

  /** In the words of `validate_only`, an issue starts with "CRITICAL" exactly when a headline is missing. */
  lemma CheckWordingCritical(x: Issue)
    ensures StartsWith(CheckIssueText(x), "CRITICAL") <==> IsMissingHeadline(x)
  {
    match x
    case MissingBackslash(t) => NotCritical("Missing backslash: ", t);
    case BlankLines(n, t) => NotCritical("Blank lines between metadata and headline: ", t);
    case MissingHeadline(t) => KeepsPrefix("CRITICAL", ": Missing headline for: " + t, "CRITICAL");
    case MissingHeadlineAtEnd(t) => KeepsPrefix("CRITICAL", ": Missing headline (EOF) for: " + t, "CRITICAL");
  }

  /** Each element of `xs` in the words of `text`, in order. */
  function Render<T>(xs: seq<T>, text: T -> String): (r: seq<String>)
    ensures |r| == |xs| && forall k :: 0 <= k < |xs| ==> r[k] == text(xs[k])
  {
    seq(|xs|, k requires 0 <= k < |xs| => text(xs[k]))
  }

  // ---------------------------------------------------------------------------
  // validate_and_fix
  // ---------------------------------------------------------------------------

  /** What a stretch of input contributes: output lines, issues found and repairs made. */
  datatype Fixing = Fixing(fixed: seq<String>, issues: seq<Issue>, fixes: seq<Repair>)

  function Then(a: Fixing, b: Fixing): Fixing {
    Fixing(a.fixed + b.fixed, a.issues + b.issues, a.fixes + b.fixes)
  }

  lemma ThenAssociative(a: Fixing, b: Fixing, c: Fixing)
    ensures Then(Then(a, b), c) == Then(a, Then(b, c))
  {
    assert (a.fixed + b.fixed) + c.fixed == a.fixed + (b.fixed + c.fixed);
    assert (a.issues + b.issues) + c.issues == a.issues + (b.issues + c.issues);
    assert (a.fixes + b.fixes) + c.fixes == a.fixes + (b.fixes + c.fixes);
  }

  function Placeholder(title: String): String {
    "*Role description for " + title + "*"
  }

  /** Where the loop goes on after metadata line `i`: past the headline, or onto the line that should have been one. */
  function MetadataNext(kinds: seq<Kind>, i: nat): (j: nat)
    requires i < |kinds|
    ensures i < j <= |kinds|
  {
    if i + 1 == |kinds| then i + 1
    else
      var j := SkipBlank(kinds, i + 1);
      if j < |kinds| && kinds[j].headline then j + 1 else j
  }

  /** Where the loop goes on after line `i`. */
  function FixNext(kinds: seq<Kind>, i: nat, inExp: bool): (j: nat)
    requires i < |kinds|
    ensures i < j <= |kinds|
  {
    if Classify(kinds, i, inExp).0 then MetadataNext(kinds, i) else i + 1
  }

  /** The metadata line itself, with a backslash appended when it lacks one. */
  function BackslashFix(line: String, k: Kind): Fixing {
    if k.backslash then Fixing([line], [], [])
    else Fixing([RStrip(line) + "\\"], [MissingBackslash(k.title)], [AddedBackslash(k.title)])
  }

  /** The report of `count` blank lines dropped after a metadata line. */
  function BlankFix(title: String, count: nat): Fixing {
    if count == 0 then Fixing([], [], [])
    else Fixing([], [BlankLines(count, title)], [RemovedBlankLines(count, title)])
  }

  /** The first non-blank line after a metadata line: kept when it is a headline, else a headline is inserted before it. */
  function HeadlineFix(lines: seq<String>, kinds: seq<Kind>, j: nat, title: String, original: map<String, String>): Fixing
    requires |kinds| == |lines| && j < |lines|
  {
    if kinds[j].headline then Fixing([lines[j]], [], [])
    else if title in original then Fixing([original[title]], [MissingHeadline(title)], [RecoveredHeadline(title)])
    else Fixing([Placeholder(title)], [MissingHeadline(title)], [CreatedPlaceholder(title)])
  }

  /** A metadata line on the last line: the headline is added only when the original has one. */
  function EndOfFileFix(title: String, original: map<String, String>): Fixing {
    if title in original then Fixing([original[title]], [MissingHeadlineAtEnd(title)], [RecoveredHeadlineAtEnd(title)])
    else Fixing([], [MissingHeadlineAtEnd(title)], [])
  }

  /** What follows the metadata line `i` in the output: the blank-line report and the headline. */
  function AfterMetadata(lines: seq<String>, kinds: seq<Kind>, i: nat, original: map<String, String>): Fixing
    requires |kinds| == |lines| && i < |lines|
  {
    var title := kinds[i].title;
    if i + 1 < |lines| then
      var j := SkipBlank(kinds, i + 1);
      var headline := if j == |lines| then Fixing([], [], []) else HeadlineFix(lines, kinds, j, title, original);
      Then(BlankFix(title, j - (i + 1)), headline)
    else EndOfFileFix(title, original)
  }

  /** What one pass of the `while i < len(lines)` loop appends for line `i`. */
  function FixOut(lines: seq<String>, kinds: seq<Kind>, i: nat, inExp: bool, original: map<String, String>): Fixing
    requires |kinds| == |lines| && i < |lines|
  {
    if Classify(kinds, i, inExp).0 then Then(BackslashFix(lines[i], kinds[i]), AfterMetadata(lines, kinds, i, original))
    else Fixing([lines[i]], [], [])
  }

  /** What the loop produces from index `i` on. */
  function FixFrom(lines: seq<String>, kinds: seq<Kind>, i: nat, inExp: bool, original: map<String, String>): Fixing
    requires |kinds| == |lines| && i <= |lines|
    decreases |lines| - i
  {
    if i == |lines| then Fixing([], [], [])
    else
      Then(FixOut(lines, kinds, i, inExp, original),
           FixFrom(lines, kinds, FixNext(kinds, i, inExp), Classify(kinds, i, inExp).1, original))
  }

  /**
   * The body of `validate_and_fix`'s loop for line `i`: what it appends, where
   * the index goes and the section flag afterwards.
   */
  method FixLine(lines: seq<String>, kinds: seq<Kind>, i: nat, inExp: bool, original: map<String, String>)
    returns (out: Fixing, next: nat, inExp': bool)
    requires |kinds| == |lines| && i < |lines|
    ensures out == FixOut(lines, kinds, i, inExp, original)
    ensures next == FixNext(kinds, i, inExp) && inExp' == Classify(kinds, i, inExp).1
  {
    var line := lines[i];
    inExp' := inExp;
    if kinds[i].experienceHeader {
      return Fixing([line], [], []), i + 1, true;
    } else if kinds[i].anyHeader && inExp' {
      inExp' := false;
    }
    if !(inExp' && kinds[i].metadata) {
      return Fixing([line], [], []), i + 1, inExp';
    }
    var title := kinds[i].title;
    var issues: seq<Issue> := [];
    var fixes: seq<Repair> := [];
    if !kinds[i].backslash {
      issues := issues + [MissingBackslash(title)];
      line := RStrip(line) + "\\";
      fixes := fixes + [AddedBackslash(title)];
    }
    var rest;
    rest, next := FollowMetadata(lines, kinds, i, original);
    out := Then(Fixing([line], issues, fixes), rest);
  }

  /** The rest of the loop body after metadata line `i`: blank lines dropped, then the headline kept or inserted. */
  method FollowMetadata(lines: seq<String>, kinds: seq<Kind>, i: nat, original: map<String, String>)
    returns (out: Fixing, next: nat)
    requires |kinds| == |lines| && i < |lines|
    ensures out == AfterMetadata(lines, kinds, i, original) && next == MetadataNext(kinds, i)
  {
    var title := kinds[i].title;
    var fixedLines: seq<String> := [];
    var issues: seq<Issue> := [];
    var fixes: seq<Repair> := [];
    next := i + 1;
    if next < |lines| {
      var j, blankCount := SkipBlankLines(kinds, next);
      next := j;
      if blankCount > 0 {
        issues := issues + [BlankLines(blankCount, title)];
        fixes := fixes + [RemovedBlankLines(blankCount, title)];
      }
      if next < |lines| {
        if kinds[next].headline {
          fixedLines := fixedLines + [lines[next]];
          next := next + 1;
        } else {
          issues := issues + [MissingHeadline(title)];
          if title in original {
            fixedLines := fixedLines + [original[title]];
            fixes := fixes + [RecoveredHeadline(title)];
          } else {
            fixedLines := fixedLines + [Placeholder(title)];
            fixes := fixes + [CreatedPlaceholder(title)];
          }
        }
      }
    } else {
      issues := issues + [MissingHeadlineAtEnd(title)];
      if title in original {
        fixedLines := fixedLines + [original[title]];
        fixes := fixes + [RecoveredHeadlineAtEnd(title)];
      }
    }
    out := Fixing(fixedLines, issues, fixes);
  }

  /** Issues whose text contains "CRITICAL". */
  function Critical(issues: seq<String>): (c: seq<String>)
    ensures |c| <= |issues|
    ensures forall x :: x in c <==> x in issues && Contains(x, "CRITICAL")
  {
    if issues == [] then []
    else (if Contains(issues[0], "CRITICAL") then [issues[0]] else []) + Critical(issues[1..])
  }

  /** No issue contains "CRITICAL" exactly when the critical ones are none. */
  lemma NoCriticalIff(issues: seq<String>)
    ensures Critical(issues) == [] <==> forall x :: x in issues ==> !Contains(x, "CRITICAL")
  {
    if Critical(issues) != [] {
      assert Critical(issues)[0] in Critical(issues);
    }
  }

  datatype FixReport = FixReport(fixedResume: String, issuesFound: seq<String>, fixesApplied: seq<String>,
                                 isValid: bool, hadCriticalIssues: bool)

  /** The report `validate_and_fix` returns for `resume`. */
  ghost predicate FixReports(r: FixReport, resume: String, original: Option<String>) {
    var lines := Lines(resume);
    var f := FixFrom(lines, KindsOf(lines), 0, false, OriginalHeadlines(original));
    && r.fixedResume == Join("\n", f.fixed)
    && r.issuesFound == Render(f.issues, FixIssueText)
    && r.fixesApplied == Render(f.fixes, RepairText)
    && (r.isValid <==> Critical(r.issuesFound) == [])
    && r.hadCriticalIssues == !r.isValid
  }

  /** The `while i < len(lines)` loop of `validate_and_fix` over the classified lines. */
  method FixLines(lines: seq<String>, kinds: seq<Kind>, original: map<String, String>) returns (f: Fixing)
    requires |kinds| == |lines|
    ensures f == FixFrom(lines, kinds, 0, false, original)
  {
    var fixedLines: seq<String> := [];
    var issuesFound: seq<Issue> := [];
    var fixesApplied: seq<Repair> := [];
    var i := 0;
    var inExp := false;
    while i < |lines|
      invariant i <= |lines|
      invariant Then(Fixing(fixedLines, issuesFound, fixesApplied), FixFrom(lines, kinds, i, inExp, original))
                == FixFrom(lines, kinds, 0, false, original)
      decreases |lines| - i
    {
      var out, next, inExp' := FixLine(lines, kinds, i, inExp, original);
      ThenAssociative(Fixing(fixedLines, issuesFound, fixesApplied), out, FixFrom(lines, kinds, next, inExp', original));
      fixedLines := fixedLines + out.fixed;
      issuesFound := issuesFound + out.issues;
      fixesApplied := fixesApplied + out.fixes;
      i, inExp := next, inExp';
    }
    f := Fixing(fixedLines, issuesFound, fixesApplied);
  }

  /** `validate_and_fix`. */
  method ValidateAndFix(resume: String, original: Option<String>) returns (r: FixReport)
    ensures FixReports(r, resume, original)
    ensures r.isValid <==> forall x :: x in r.issuesFound ==> !Contains(x, "CRITICAL")
  {
    var lines := Lines(resume);
    var originalHeadlines: map<String, String> := map[];
    if original.Some? && original.value != [] {
      originalHeadlines := ExtractJobHeadlines(original.value);
    }
    var f := FixLines(lines, KindsOf(lines), originalHeadlines);
    var issues := Render(f.issues, FixIssueText);
    var critical := Critical(issues);
    NoCriticalIff(issues);
    r := FixReport(Join("\n", f.fixed), issues, Render(f.fixes, RepairText), |critical| == 0, |critical| > 0);
  }

  // ---------------------------------------------------------------------------
  // validate_only
  // ---------------------------------------------------------------------------

  /** The issues line `i` raises. */
  function CheckOut(kinds: seq<Kind>, i: nat, inExp: bool): seq<Issue>
    requires i < |kinds|
  {
    if !Classify(kinds, i, inExp).0 then []
    else
      var title := kinds[i].title;
      var backslash := if kinds[i].backslash then [] else [MissingBackslash(title)];
      if i + 1 < |kinds| then
        var j := SkipBlank(kinds, i + 1);
        var blanks := if j == i + 1 then [] else [BlankLines(j - (i + 1), title)];
        var headline := if j < |kinds| && !kinds[j].headline then [MissingHeadline(title)] else [];
        backslash + blanks + headline
      else backslash + [MissingHeadlineAtEnd(title)]
  }

  /** The issues the lines from `i` on raise. */
  function CheckFrom(kinds: seq<Kind>, i: nat, inExp: bool): seq<Issue>
    requires i <= |kinds|
    decreases |kinds| - i
  {
    if i == |kinds| then [] else CheckOut(kinds, i, inExp) + CheckFrom(kinds, i + 1, Classify(kinds, i, inExp).1)
  }

  /** The body of `validate_only`'s loop for line `i`: the issues it appends and the section flag afterwards. */
  method CheckLine(kinds: seq<Kind>, i: nat, inExp: bool) returns (issues: seq<Issue>, inExp': bool)
    requires i < |kinds|
    ensures issues == CheckOut(kinds, i, inExp) && inExp' == Classify(kinds, i, inExp).1
  {
    issues := [];
    inExp' := inExp;
    if kinds[i].experienceHeader {
      return [], true;
    } else if kinds[i].anyHeader && inExp' {
      inExp' := false;
    }
    if inExp' && kinds[i].metadata {
      var title := kinds[i].title;
      if !kinds[i].backslash {
        issues := issues + [MissingBackslash(title)];
      }
      if i + 1 < |kinds| {
        var j, blankCount := SkipBlankLines(kinds, i + 1);
        if blankCount > 0 {
          issues := issues + [BlankLines(blankCount, title)];
        }
        if j < |kinds| {
          if !kinds[j].headline {
            issues := issues + [MissingHeadline(title)];
          }
        }
      } else {
        issues := issues + [MissingHeadlineAtEnd(title)];
      }
    }
  }

  datatype CheckReport = CheckReport(isValid: bool, issues: seq<String>, criticalCount: nat)

  /** The report `validate_only` returns for `resume`. */
  ghost predicate CheckReports(r: CheckReport, resume: String) {
    && r.issues == Render(CheckFrom(KindsOf(Lines(resume)), 0, false), CheckIssueText)
    && (r.isValid <==> r.issues == [])
    && r.criticalCount == |Critical(r.issues)|
  }

  /** The loop of `validate_only` over the classified lines. */
  method CheckLines(kinds: seq<Kind>) returns (issues: seq<Issue>)
    ensures issues == CheckFrom(kinds, 0, false)
  {
    issues := [];
    var inExp := false;
    for i := 0 to |kinds|
      invariant issues + CheckFrom(kinds, i, inExp) == CheckFrom(kinds, 0, false)
    {
      var found, inExp' := CheckLine(kinds, i, inExp);
      assert CheckFrom(kinds, i, inExp) == found + CheckFrom(kinds, i + 1, inExp');
      assert (issues + found) + CheckFrom(kinds, i + 1, inExp') == issues + (found + CheckFrom(kinds, i + 1, inExp'));
      issues := issues + found;
      inExp := inExp';
    }
  }

  /** `validate_only`: reports without changing anything. */
  method ValidateOnly(resume: String) returns (r: CheckReport)
    ensures CheckReports(r, resume)
  {
    var found := CheckLines(KindsOf(Lines(resume)));
    var issues := Render(found, CheckIssueText);
    var critical := Critical(issues);
    r := CheckReport(|issues| == 0, issues, |critical|);
  }
}
