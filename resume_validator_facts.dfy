/**
 * What the resume structure validator guarantees: the fixer repairs each
 * checked metadata line (backslash, blank lines, headline), copies every other
 * line unchanged and in order, and agrees with the checker on how many issues
 * a resume has; a resume the checker finds clean comes back unchanged.
 */
module ResumeStructureFacts {
  import opened Text
  import opened Wrappers
  import opened ResumeStructure

  // ---------------------------------------------------------------------------
  // The pieces a repair is made of
  // ---------------------------------------------------------------------------

  /** A job title never holds a star: it is the stripped text between `**` and `**`. */
  lemma JobTitleStarFree(l: String)
    ensures '*' !in JobTitle(l)
  {
    match TitleFrom(l, 0)
    case Some(g) =>
      StripSlice(g);
      var off := StripOffset(g);
      forall m | 0 <= m < |Strip(g)| ensures Strip(g)[m] != '*' {
        assert Strip(g)[m] == g[off + m];
      }
    case None =>
  }

  /** The placeholder headline passes the headline test when the title holds no star. */
  lemma PlaceholderIsHeadline(title: String)
    requires '*' !in title
    ensures IsHeadlineLine(Placeholder(title))
  {
    var p := Placeholder(title);
    var prefix := "*Role description for ";
    assert p == prefix + title + "*";
    NoEdgeSpaceStrip(p);
    forall m | 0 < m < |p| - 1 ensures p[m] != '*' {
      if m < |prefix| {
        assert p[m] == prefix[m];
      } else {
        assert p[m] == title[m - |prefix|];
      }
    }
  }

  /**
   * The metadata line after the backslash repair ends in a backslash once
   * right-stripped and keeps its right-stripped text; exactly one issue and
   * one fix are recorded when the backslash was missing, none otherwise.
   */
  lemma BackslashRepaired(line: String, k: Kind)
    requires k.backslash == EndsWith(RStrip(line), "\\")
    ensures var f := BackslashFix(line, k);
      && |f.fixed| == 1
      && EndsWith(RStrip(f.fixed[0]), "\\")
      && StartsWith(f.fixed[0], RStrip(line))
      && |f.issues| == |f.fixes| == (if k.backslash then 0 else 1)
      && (k.backslash ==> f.fixed[0] == line)
  {
    if !k.backslash {
      var t := RStrip(line) + "\\";
      assert RStrip(t) == t;
      assert t[..|RStrip(line)|] == RStrip(line);
    } else {
      assert line[..|RStrip(line)|] == RStrip(line);
    }
  }

  // ---------------------------------------------------------------------------
  // One checked metadata line
  // ---------------------------------------------------------------------------

  /**
   * After a checked metadata line with more lines below, every line up to the
   * next non-blank one is blank, and the loop goes on past all of them.
   */
  lemma BlanksSkipped(kinds: seq<Kind>, i: nat, inExp: bool)
    requires i + 1 < |kinds| && Classify(kinds, i, inExp).0
    ensures var j := SkipBlank(kinds, i + 1);
      && (forall m :: i < m < j ==> kinds[m].blank)
      && FixNext(kinds, i, inExp) >= j
  {
    var j := SkipBlank(kinds, i + 1);
    forall m | i < m < j ensures kinds[m].blank {
      SkipBlankSkipsBlanks(kinds, i + 1, m);
    }
  }

  /**
   * The blank lines after a checked metadata line are dropped from the output;
   * their number is reported once, as an issue and as a repair, and a
   * blank-line issue is raised only when there were blank lines. When only
   * blank lines follow, nothing else is output and no headline is reported
   * missing.
   */
  lemma BlanksDropped(lines: seq<String>, kinds: seq<Kind>, i: nat, inExp: bool, original: map<String, String>)
    requires |kinds| == |lines| && i + 1 < |lines| && Classify(kinds, i, inExp).0
    ensures var j := SkipBlank(kinds, i + 1);
      var out := FixOut(lines, kinds, i, inExp, original);
      var title := kinds[i].title;
      && |out.fixed| == (if j < |lines| then 2 else 1)
      && (j > i + 1 ==> BlankLines(j - (i + 1), title) in out.issues && RemovedBlankLines(j - (i + 1), title) in out.fixes)
      && (forall x :: x in out.issues && x.BlankLines? ==> j > i + 1 && x == BlankLines(j - (i + 1), title))
      && (j == |lines| ==> forall x :: x in out.issues ==> !IsMissingHeadline(x))
  {
  }

  /**
   * The line inserted for a missing headline: the original's headline for the
   * title when there is one, else the placeholder; either is a headline line.
   */
  lemma InsertedIsHeadline(title: String, original: map<String, String>)
    requires '*' !in title && AllHeadlines(original)
    ensures IsHeadlineLine(if title in original then original[title] else Placeholder(title))
  {
    if title in original {
      assert IsHeadlineLine(original[title]);
    } else {
      PlaceholderIsHeadline(title);
    }
  }

  /**
   * After a checked metadata line, when a non-blank line follows the blank
   * ones, exactly one line comes out after the metadata line. A headline that
   * is there is kept and skipped; a missing one is reported and replaced by the
   * original's headline for the title, else by the placeholder, and the loop
   * goes on AT the offending line, which is therefore processed normally
   * rather than dropped.
   */
  lemma HeadlineRestored(lines: seq<String>, kinds: seq<Kind>, i: nat, inExp: bool, original: map<String, String>)
    requires |kinds| == |lines| && i + 1 < |lines| && Classify(kinds, i, inExp).0
    requires SkipBlank(kinds, i + 1) < |lines|
    ensures var j := SkipBlank(kinds, i + 1);
      var out := FixOut(lines, kinds, i, inExp, original);
      var next := FixNext(kinds, i, inExp);
      var title := kinds[i].title;
      && |out.fixed| == 2
      && (kinds[j].headline ==>
            && out.fixed[1] == lines[j] && next == j + 1
            && forall x :: x in out.issues ==> !IsMissingHeadline(x))
      && (!kinds[j].headline ==>
            && next == j
            && MissingHeadline(title) in out.issues
            && out.fixed[1] == (if title in original then original[title] else Placeholder(title)))
  {
  }

  /**
   * A checked metadata line that is the last line: a missing headline is
   * reported, and a headline is added only when the original has one for the
   * title, never a placeholder.
   */
  lemma EndOfFileRecoversOnly(lines: seq<String>, kinds: seq<Kind>, i: nat, inExp: bool, original: map<String, String>)
    requires |kinds| == |lines| && i + 1 == |lines| && Classify(kinds, i, inExp).0
    requires AllHeadlines(original)
    ensures var out := FixOut(lines, kinds, i, inExp, original);
      var title := kinds[i].title;
      && FixNext(kinds, i, inExp) == |lines|
      && MissingHeadlineAtEnd(title) in out.issues
      && 1 <= |out.fixed| <= 2
      && (|out.fixed| == 2 <==> title in original)
      && (|out.fixed| == 2 ==> out.fixed[1] == original[title] && IsHeadlineLine(out.fixed[1]))
  {
    var title := kinds[i].title;
    if title in original {
      assert IsHeadlineLine(original[title]);
    }
  }

  // ---------------------------------------------------------------------------
  // The whole pass
  // ---------------------------------------------------------------------------

  /**
   * Outside an Experience section, with no Experience header further down,
   * every line is copied unchanged and in order and nothing is reported: a
   * header other than an Experience header ends the section.
   */
  lemma {:induction false} NoExperienceUnchanged(lines: seq<String>, kinds: seq<Kind>, i: nat, inExp: bool,
                                                 original: map<String, String>)
    requires |kinds| == |lines| && i <= |lines|
    requires forall m :: i <= m < |lines| ==> !kinds[m].experienceHeader
    requires inExp ==> i < |lines| && kinds[i].anyHeader
    ensures FixFrom(lines, kinds, i, inExp, original) == Fixing(lines[i..], [], [])
    ensures CheckFrom(kinds, i, inExp) == []
    decreases |lines| - i
  {
    if i < |lines| {
      NoExperienceUnchanged(lines, kinds, i + 1, false, original);
      assert lines[i..] == [lines[i]] + lines[i + 1..];
    }
  }

  /** The fixer records at most one repair per issue. */
  lemma {:induction false} FixesAtMostIssues(lines: seq<String>, kinds: seq<Kind>, i: nat, inExp: bool,
                                             original: map<String, String>)
    requires |kinds| == |lines| && i <= |lines|
    ensures var f := FixFrom(lines, kinds, i, inExp, original); |f.fixes| <= |f.issues|
    decreases |lines| - i
  {
    if i < |lines| {
      FixesAtMostIssues(lines, kinds, FixNext(kinds, i, inExp), Classify(kinds, i, inExp).1, original);
    }
  }

  /** The checker passes over blank lines without a report and without leaving or entering a section. */
  lemma {:induction false} BlanksCheckNothing(kinds: seq<Kind>, a: nat, b: nat, inExp: bool)
    requires Consistent(kinds) && a <= b <= |kinds|
    requires forall m :: a <= m < b ==> kinds[m].blank
    ensures CheckFrom(kinds, a, inExp) == CheckFrom(kinds, b, inExp)
    decreases b - a
  {
    if a < b {
      assert Plain(kinds[a]);
      assert Classify(kinds, a, inExp) == (false, inExp);
      assert CheckFrom(kinds, a, inExp) == CheckFrom(kinds, a + 1, inExp);
      BlanksCheckNothing(kinds, a + 1, b, inExp);
    }
  }

  /** Inside the Experience section a headline line raises nothing and keeps the section open. */
  lemma HeadlineChecksNothing(kinds: seq<Kind>, j: nat)
    requires Consistent(kinds) && j < |kinds| && kinds[j].headline
    ensures CheckFrom(kinds, j, true) == CheckFrom(kinds, j + 1, true)
  {
    assert Plain(kinds[j]);
  }

  /** After a metadata line the checker reports from where the fixer goes on the same as from the next line. */
  lemma MetadataChecksSkipped(kinds: seq<Kind>, i: nat)
    requires Consistent(kinds) && i + 1 < |kinds|
    ensures CheckFrom(kinds, i + 1, true) == CheckFrom(kinds, MetadataNext(kinds, i), true)
  {
    var j := SkipBlank(kinds, i + 1);
    forall m | i + 1 <= m < j ensures kinds[m].blank {
      SkipBlankSkipsBlanks(kinds, i + 1, m);
    }
    BlanksCheckNothing(kinds, i + 1, j, true);
    if j < |kinds| && kinds[j].headline {
      HeadlineChecksNothing(kinds, j);
    }
  }

  /** Where the fixer goes on after line `i`, the checker reports the same as from line `i + 1` on. */
  lemma CheckResumesAtFixNext(kinds: seq<Kind>, i: nat, inExp: bool)
    requires Consistent(kinds) && i < |kinds|
    ensures var c := Classify(kinds, i, inExp);
      CheckFrom(kinds, i + 1, c.1) == CheckFrom(kinds, FixNext(kinds, i, inExp), c.1)
  {
    if Classify(kinds, i, inExp).0 && i + 1 < |kinds| {
      MetadataChecksSkipped(kinds, i);
    }
  }

  /** Line `i` raises the same issues in the fixer as in the checker. */
  lemma StepIssuesAgree(lines: seq<String>, kinds: seq<Kind>, i: nat, inExp: bool, original: map<String, String>)
    requires |kinds| == |lines| && i < |lines|
    ensures FixOut(lines, kinds, i, inExp, original).issues == CheckOut(kinds, i, inExp)
  {
    if Classify(kinds, i, inExp).0 && i + 1 < |lines| {
      var title := kinds[i].title;
      var j := SkipBlank(kinds, i + 1);
      var a := BackslashFix(lines[i], kinds[i]).issues;
      var b := BlankFix(title, j - (i + 1)).issues;
      var c := if j == |lines| then [] else HeadlineFix(lines, kinds, j, title, original).issues;
      assert a + (b + c) == a + b + c;
    }
  }

  /**
   * The fixer and the checker find the same issues, in the same order; only
   * their wording differs.
   */
  lemma {:induction false} IssuesAgree(lines: seq<String>, kinds: seq<Kind>, i: nat, inExp: bool,
                                       original: map<String, String>)
    requires |kinds| == |lines| && i <= |lines| && Consistent(kinds)
    ensures FixFrom(lines, kinds, i, inExp, original).issues == CheckFrom(kinds, i, inExp)
    decreases |lines| - i
  {
    if i < |lines| {
      var c := Classify(kinds, i, inExp);
      StepIssuesAgree(lines, kinds, i, inExp, original);
      CheckResumesAtFixNext(kinds, i, inExp);
      IssuesAgree(lines, kinds, FixNext(kinds, i, inExp), c.1, original);
    }
  }

  /** A line the checker finds clean is copied, together with its headline when it is a metadata line. */
  lemma CleanStep(lines: seq<String>, kinds: seq<Kind>, i: nat, inExp: bool, original: map<String, String>)
    requires |kinds| == |lines| && i < |lines| && CheckOut(kinds, i, inExp) == []
    ensures FixOut(lines, kinds, i, inExp, original) == Fixing(lines[i..FixNext(kinds, i, inExp)], [], [])
  {
    if Classify(kinds, i, inExp).0 {
      assert lines[i..i + 2] == [lines[i], lines[i + 1]];
    } else {
      assert lines[i..i + 1] == [lines[i]];
    }
  }

  /** Lines the checker finds clean come out of the fixer unchanged. */
  lemma {:induction false} CleanIsFixedPoint(lines: seq<String>, kinds: seq<Kind>, i: nat, inExp: bool,
                                             original: map<String, String>)
    requires |kinds| == |lines| && i <= |lines| && Consistent(kinds)
    requires CheckFrom(kinds, i, inExp) == []
    ensures FixFrom(lines, kinds, i, inExp, original) == Fixing(lines[i..], [], [])
    decreases |lines| - i
  {
    if i < |lines| {
      var c := Classify(kinds, i, inExp);
      var next := FixNext(kinds, i, inExp);
      CleanStep(lines, kinds, i, inExp, original);
      CheckResumesAtFixNext(kinds, i, inExp);
      CleanIsFixedPoint(lines, kinds, next, c.1, original);
      SliceSplit(lines, i, next);
    }
  }

  /** A text that starts with "CRITICAL" contains it. */
  lemma StartsCritical(s: String)
    requires StartsWith(s, "CRITICAL")
    ensures Contains(s, "CRITICAL")
  {
    FindFirst(s, "CRITICAL", 0);
  }

  /**
   * `validate_and_fix` and `validate_only` on the same resume find the same
   * issues in the same order, each in its own words; when `validate_only`
   * finds the resume valid, `validate_and_fix` returns it unchanged, valid,
   * with nothing fixed, and the other way round.
   */
  lemma ValidatorsAgree(resume: String, original: Option<String>, r: FixReport, c: CheckReport)
    requires FixReports(r, resume, original) && CheckReports(c, resume)
    ensures var issues := CheckFrom(KindsOf(Lines(resume)), 0, false);
      r.issuesFound == Render(issues, FixIssueText) && c.issues == Render(issues, CheckIssueText)
    ensures c.isValid <==> r.issuesFound == []
    ensures c.isValid ==> r.fixedResume == resume && r.fixesApplied == [] && r.isValid && !r.hadCriticalIssues
  {
    var lines := Lines(resume);
    var kinds := KindsOf(lines);
    var headlines := OriginalHeadlines(original);
    KindsOfConsistent(lines);
    IssuesAgree(lines, kinds, 0, false, headlines);
    FixesAtMostIssues(lines, kinds, 0, false, headlines);
    if c.isValid {
      CleanIsFixedPoint(lines, kinds, 0, false, headlines);
      assert lines[0..] == lines;
      JoinSplit(resume, '\n');
    }
  }

  /** A report of `validate_and_fix` that is valid has no missing headline among its issues. */
  lemma ValidMeansNoMissingHeadline(resume: String, original: Option<String>, r: FixReport)
    requires FixReports(r, resume, original) && r.isValid
    ensures var lines := Lines(resume);
      forall x :: x in FixFrom(lines, KindsOf(lines), 0, false, OriginalHeadlines(original)).issues ==> !IsMissingHeadline(x)
  {
    var lines := Lines(resume);
    var issues := FixFrom(lines, KindsOf(lines), 0, false, OriginalHeadlines(original)).issues;
    NoCriticalIff(r.issuesFound);
    forall x | x in issues ensures !IsMissingHeadline(x) {
      var k :| 0 <= k < |issues| && issues[k] == x;
      assert r.issuesFound[k] == FixIssueText(x);
      FixWordingCritical(x);
      if IsMissingHeadline(x) {
        StartsCritical(FixIssueText(x));
      }
    }
  }
}
