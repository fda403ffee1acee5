/**
 * The resume formatting validator (agent 4): the parser of its marked
 * report (`VALIDATION_SCORE:`, `ISSUES:`, `RECOMMENDATIONS:`, `SUMMARY:`,
 * `IS_VALID:`), the `[SEVERITY] [Category] description` issue pattern, the
 * score clamp and the validity rule.
 */
module FormatValidator {
  import opened Text
  import opened Wrappers
  import opened ResumeScorer

  datatype Part = NoPart | ScorePart | IssuesPart | RecommendationsPart | SummaryPart | ValidityPart

  datatype Severity = Critical | Warning | Info

  function SeverityName(s: Severity): String {
    match s
    case Critical => "CRITICAL"
    case Warning => "WARNING"
    case Info => "INFO"
  }

  datatype Issue = Issue(severity: Severity, category: String, description: String)

  datatype Validation = Validation(
    score: int, isValid: bool, issues: seq<Issue>, recommendations: seq<String>, summary: String,
    criticalCount: nat, warningCount: nat, infoCount: nat)

  const DefaultScore := 80

  /** The part a stripped line opens, tried in the parser's order. */
  function MarkerOf(l: String): Option<Part> {
    if StartsWith(l, "VALIDATION_SCORE:") then Some(ScorePart)
    else if StartsWith(l, "ISSUES:") then Some(IssuesPart)
    else if StartsWith(l, "RECOMMENDATIONS:") then Some(RecommendationsPart)
    else if StartsWith(l, "SUMMARY:") then Some(SummaryPart)
    else if StartsWith(l, "IS_VALID:") then Some(ValidityPart)
    else None
  }

  /**
   * `[WORD]` at the head of `t`, the word matched without regard to case;
   * the index just past its closing bracket.
   */
  function BracketedWord(t: String, word: String): (r: Option<nat>)
    ensures r.Some? ==> r.value == |word| + 2 <= |t| && t[0] == '[' && t[|word| + 1] == ']'
  {
    if |t| >= |word| + 2 && t[0] == '[' && UpperEquals(t[1..|word| + 1], word) && t[|word| + 1] == ']'
    then Some(|word| + 2) else None
  }

  /** The alternation `\[(CRITICAL|WARNING|INFO)\]`, tried in that order. */
  function SeverityPrefix(t: String): Option<(Severity, nat)> {
    match BracketedWord(t, "CRITICAL")
    case Some(n) => Some((Critical, n))
    case None =>
      match BracketedWord(t, "WARNING")
      case Some(n) => Some((Warning, n))
      case None =>
        match BracketedWord(t, "INFO")
        case Some(n) => Some((Info, n))
        case None => None
  }

  /**
   * `re.match(r'\[(CRITICAL|WARNING|INFO)\]\s*\[([^\]]+)\]\s*(.+)', t, re.IGNORECASE)`:
   * the severity, the category group and the text after the category's
   * closing bracket.
   */
  function IssuePattern(t: String): (r: Option<(Severity, String, String)>)
    ensures r.Some? ==> r.value.1 != [] && ']' !in r.value.1 && r.value.2 != []
  {
    match SeverityPrefix(t)
    case None => None
    case Some((sev, n)) =>
      if n > |t| then None
      else
        match BracketPart(LStrip(t[n..]))
        case None => None
        case Some((category, rest)) => Some((sev, category, rest))
  }

  /** `\[([^\]]+)\]\s*(.+)` at the start of `u`: the bracketed category and the rest. */
  function BracketPart(u: String): (r: Option<(String, String)>)
    ensures r.Some? ==> r.value.0 != [] && ']' !in r.value.0 && r.value.1 != []
  {
    if |u| == 0 || u[0] != '[' then None
    else
      var j := Find(u, "]");
      if j < 2 then None
      else
        FindCharFacts(u, ']');
        var category := u[1..j];
        assert category == u[..j][1..];
        var rest := u[j + 1..];
        if rest == [] then None else Some((category, rest))
  }

  /** One issue line's text: the pattern's parts, or an INFO issue of category "General". */
  function ParseIssue(t: String): (r: Issue)
    ensures IssuePattern(t).None? ==> r == Issue(Info, "General", t)
  {
    match IssuePattern(t)
    case Some((sev, category, rest)) => Issue(sev, Strip(category), Strip(rest))
    case None => Issue(Info, "General", t)
  }

  /** The score after the first `n` lines: 80 until a `VALIDATION_SCORE:` line holds a number. */
  function ScoreAt(lines: seq<String>, n: nat): int
    requires n <= |lines|
  {
    if n == 0 then DefaultScore
    else
      var l := Strip(lines[n - 1]);
      var previous := ScoreAt(lines, n - 1);
      if MarkerOf(l) == Some(ScorePart) then MarkedNumber(l, "VALIDATION_SCORE:", previous) else previous
  }

  function ValidityOf(l: String): bool {
    Contains(Upper(Strip(Replace(l, "IS_VALID:", ""))), "YES")
  }

  /** The verdict of the last `IS_VALID:` line among the first `n`, true without one. */
  function ValidityAt(lines: seq<String>, n: nat): bool
    requires n <= |lines|
  {
    if n == 0 then true
    else
      var l := Strip(lines[n - 1]);
      if MarkerOf(l) == Some(ValidityPart) then ValidityOf(l) else ValidityAt(lines, n - 1)
  }

  function PartAt(lines: seq<String>, n: nat): Part
    requires n <= |lines|
  {
    if n == 0 then NoPart
    else match MarkerOf(Strip(lines[n - 1]))
      case Some(p) => p
      case None => PartAt(lines, n - 1)
  }

  /** The text of a dash line of `part` among the first `n + 1` lines, unless it reads "NONE". */
  predicate DashEntry(lines: seq<String>, n: nat, part: Part)
    requires n < |lines|
  {
    var l := Strip(lines[n]);
    MarkerOf(l).None? && StartsWith(l, "-") && PartAt(lines, n) == part && !UpperEquals(Strip(l[1..]), "NONE")
  }

  function IssuesAt(lines: seq<String>, n: nat): seq<Issue>
    requires n <= |lines|
  {
    if n == 0 then []
    else
      var entry := if DashEntry(lines, n - 1, IssuesPart) then [ParseIssue(Strip(Strip(lines[n - 1])[1..]))] else [];
      IssuesAt(lines, n - 1) + entry
  }

  function RecommendationsAt(lines: seq<String>, n: nat): seq<String>
    requires n <= |lines|
  {
    if n == 0 then []
    else
      var entry := if DashEntry(lines, n - 1, RecommendationsPart) then [Strip(Strip(lines[n - 1])[1..])] else [];
      RecommendationsAt(lines, n - 1) + entry
  }

  /** Line `n` is a non-empty non-marker line of the summary part. */
  predicate SummaryEntry(lines: seq<String>, n: nat)
    requires n < |lines|
  {
    var l := Strip(lines[n]);
    MarkerOf(l).None? && l != [] && PartAt(lines, n) == SummaryPart
  }

  /** The summary accumulator: each summary line followed by a space. */
  function SummaryAt(lines: seq<String>, n: nat): String
    requires n <= |lines|
  {
    if n == 0 then []
    else SummaryAt(lines, n - 1) + (if SummaryEntry(lines, n - 1) then Strip(lines[n - 1]) + " " else [])
  }

  /** An accumulated summary that is not empty starts with a character that is not whitespace. */
  lemma {:induction false} SummaryHasText(lines: seq<String>, n: nat)
    requires n <= |lines|
    ensures SummaryAt(lines, n) != [] ==> !IsSpace(SummaryAt(lines, n)[0])
  {
    if n > 0 {
      SummaryHasText(lines, n - 1);
      var previous := SummaryAt(lines, n - 1);
      if SummaryEntry(lines, n - 1) {
        var l := Strip(lines[n - 1]);
        assert l != [];
        HeadKept(previous, l + " ");
      }
    }
  }

  lemma HeadKept(a: String, b: String)
    requires a != [] ==> !IsSpace(a[0])
    requires b != [] && !IsSpace(b[0])
    ensures !IsSpace((a + b)[0])
  {
  }

  function Count(issues: seq<Issue>, sev: Severity): (r: nat)
    ensures r <= |issues|
  {
    if issues == [] then 0
    else Count(issues[..|issues| - 1], sev) + (if issues[|issues| - 1].severity == sev then 1 else 0)
  }

  /** Every issue has exactly one of the three severities, so the three counts add up to the issues. */
  lemma {:induction false} CountsPartition(issues: seq<Issue>)
    ensures Count(issues, Critical) + Count(issues, Warning) + Count(issues, Info) == |issues|
  {
    if issues != [] {
      CountsPartition(issues[..|issues| - 1]);
    }
  }

  lemma {:induction false} NoCriticalCount(issues: seq<Issue>)
    ensures Count(issues, Critical) == 0 <==> forall k :: 0 <= k < |issues| ==> issues[k].severity != Critical
  {
    if issues != [] {
      var init := issues[..|issues| - 1];
      NoCriticalCount(init);
      assert forall k :: 0 <= k < |init| ==> init[k] == issues[k];
    }
  }

  /** The score clamped into 1..100. */
  function Clamp(score: int): (r: int)
    ensures 1 <= r <= 100
    ensures 1 <= score <= 100 ==> r == score
  {
    if score < 1 then 1 else if score > 100 then 100 else score
  }

  /** One line of the spec functions, in the shape of `ReadLine`'s contract. */
  lemma StepFacts(lines: seq<String>, i: nat)
    requires i < |lines|
    ensures var l := Strip(lines[i]);
      var part := PartAt(lines, i);
      && PartAt(lines, i + 1) == (if MarkerOf(l).Some? then MarkerOf(l).value else part)
      && ScoreAt(lines, i + 1) ==
           (if MarkerOf(l) == Some(ScorePart) then MarkedNumber(l, "VALIDATION_SCORE:", ScoreAt(lines, i)) else ScoreAt(lines, i))
      && ValidityAt(lines, i + 1) == (if MarkerOf(l) == Some(ValidityPart) then ValidityOf(l) else ValidityAt(lines, i))
      && IssuesAt(lines, i + 1) == IssuesAt(lines, i) +
           (if MarkerOf(l).None? && StartsWith(l, "-") && part == IssuesPart && !UpperEquals(Strip(l[1..]), "NONE")
            then [ParseIssue(Strip(l[1..]))] else [])
      && RecommendationsAt(lines, i + 1) == RecommendationsAt(lines, i) +
           (if MarkerOf(l).None? && StartsWith(l, "-") && part == RecommendationsPart && !UpperEquals(Strip(l[1..]), "NONE")
            then [Strip(l[1..])] else [])
      && SummaryAt(lines, i + 1) == SummaryAt(lines, i) + (if MarkerOf(l).None? && l != [] && part == SummaryPart then l + " " else [])
  {
  }

  const SummaryGuard: seq<String> := ["ISSUES:", "RECOMMENDATIONS:", "VALIDATION_SCORE:", "IS_VALID:"]

  /** One pass of the parser's loop body over the stripped line `line`. */
  method ReadLine(line: String, part: Part, score: int, isValid: bool, issues: seq<Issue>,
                  recommendations: seq<String>, summary: String)
    returns (part': Part, score': int, isValid': bool, issues': seq<Issue>,
             recommendations': seq<String>, summary': String)
    ensures part' == (if MarkerOf(line).Some? then MarkerOf(line).value else part)
    ensures score' == (if MarkerOf(line) == Some(ScorePart) then MarkedNumber(line, "VALIDATION_SCORE:", score) else score)
    ensures isValid' == (if MarkerOf(line) == Some(ValidityPart) then ValidityOf(line) else isValid)
    ensures issues' == issues +
      (if MarkerOf(line).None? && StartsWith(line, "-") && part == IssuesPart && !UpperEquals(Strip(line[1..]), "NONE")
       then [ParseIssue(Strip(line[1..]))] else [])
    ensures recommendations' == recommendations +
      (if MarkerOf(line).None? && StartsWith(line, "-") && part == RecommendationsPart && !UpperEquals(Strip(line[1..]), "NONE")
       then [Strip(line[1..])] else [])
    ensures summary' == summary + (if MarkerOf(line).None? && line != [] && part == SummaryPart then line + " " else [])
  {
    part', score', isValid', issues', recommendations', summary' := part, score, isValid, issues, recommendations, summary;
    if StartsWith(line, "VALIDATION_SCORE:") {
      score' := MarkedNumber(line, "VALIDATION_SCORE:", score);
      part' := ScorePart;
    } else if StartsWith(line, "ISSUES:") {
      part' := IssuesPart;
    } else if StartsWith(line, "RECOMMENDATIONS:") {
      part' := RecommendationsPart;
    } else if StartsWith(line, "SUMMARY:") {
      part' := SummaryPart;
    } else if StartsWith(line, "IS_VALID:") {
      isValid' := ValidityOf(line);
      part' := ValidityPart;
    } else if line != [] && part == IssuesPart && StartsWith(line, "-") {
      var issueText := Strip(line[1..]);
      if !UpperEquals(issueText, "NONE") {
        issues' := issues + [ParseIssue(issueText)];
      }
    } else if line != [] && part == RecommendationsPart && StartsWith(line, "-") {
      var recText := Strip(line[1..]);
      if !UpperEquals(recText, "NONE") {
        recommendations' := recommendations + [recText];
      }
    } else if line != [] && part == SummaryPart && !StartsWithAny(line, SummaryGuard) {
      summary' := summary + line + " ";
    }
  }

  /** `r` is what the parser reports for the stripped response lines `lines`. */
  ghost predicate Reports(r: Validation, lines: seq<String>) {
    var n := |lines|;
    && r.score == Clamp(ScoreAt(lines, n))
    && r.issues == IssuesAt(lines, n)
    && r.recommendations == RecommendationsAt(lines, n)
    && (r.isValid <==> ValidityAt(lines, n) && r.score >= 80 && forall k :: 0 <= k < |r.issues| ==> r.issues[k].severity != Critical)
    && r.summary == (if SummaryAt(lines, n) == [] then "Validation completed." else Strip(SummaryAt(lines, n)))
  }

  /** `_parse_response` of the formatting validator. */
  method ParseValidation(response: String) returns (r: Validation)
    ensures Reports(r, Lines(Strip(response)))
    ensures 1 <= r.score <= 100
    ensures r.summary != []
    ensures r.criticalCount + r.warningCount + r.infoCount == |r.issues|
    ensures r.criticalCount == Count(r.issues, Critical) && r.warningCount == Count(r.issues, Warning)
    ensures r.infoCount == Count(r.issues, Info)
  {
    var lines := Lines(Strip(response));
    var score := DefaultScore;
    var issues: seq<Issue> := [];
    var recommendations: seq<String> := [];
    var summary: String := "";
    var isValid := true;
    var part := NoPart;
    for i := 0 to |lines|
      invariant part == PartAt(lines, i)
      invariant score == ScoreAt(lines, i)
      invariant isValid == ValidityAt(lines, i)
      invariant summary == SummaryAt(lines, i)
      invariant issues == IssuesAt(lines, i)
      invariant recommendations == RecommendationsAt(lines, i)
    {
      StepFacts(lines, i);
      part, score, isValid, issues, recommendations, summary :=
        ReadLine(Strip(lines[i]), part, score, isValid, issues, recommendations, summary);
    }
    SummaryHasText(lines, |lines|);
    r := Conclude(score, isValid, issues, recommendations, summary);
  }

  /** The end of the parser: the clamp, the validity rule, the summary default and the counts. */
  method Conclude(score: int, isValid: bool, issues: seq<Issue>, recommendations: seq<String>, summary: String)
    returns (r: Validation)
    requires summary != [] ==> !IsSpace(summary[0])
    ensures r.score == Clamp(score) && r.issues == issues && r.recommendations == recommendations
    ensures r.isValid <==> isValid && r.score >= 80 && forall k :: 0 <= k < |issues| ==> issues[k].severity != Critical
    ensures r.summary == (if summary == [] then "Validation completed." else Strip(summary))
    ensures r.summary != []
    ensures r.criticalCount + r.warningCount + r.infoCount == |r.issues|
    ensures r.criticalCount == Count(issues, Critical) && r.warningCount == Count(issues, Warning)
    ensures r.infoCount == Count(issues, Info)
  {
    var clamped := Clamp(score);
    var valid := isValid;
    var critical := Count(issues, Critical);
    NoCriticalCount(issues);
    if critical > 0 || clamped < 80 {
      valid := false;
    }
    CountsPartition(issues);
    r := Validation(
      clamped, valid, issues, recommendations,
      if summary == [] then "Validation completed." else Strip(summary),
      critical, Count(issues, Warning), Count(issues, Info));
  }

  /** `validate_resume` after the model call: a client error is re-raised with a prefix. */
  method ValidateResume(reply: Result<String>) returns (r: Result<Validation>)
    ensures reply.Err? ==> r == Err("Validation failed: " + reply.error)
    ensures reply.Ok? ==> r.Ok? && 1 <= r.value.score <= 100
    ensures reply.Ok? ==> Reports(r.value, Lines(Strip(reply.value)))
    ensures r.Ok? ==> r.value.criticalCount == Count(r.value.issues, Critical) && r.value.warningCount == Count(r.value.issues, Warning)
    ensures r.Ok? ==> r.value.infoCount == Count(r.value.issues, Info)
    ensures r.Ok? && r.value.isValid ==> r.value.score >= 80 && r.value.criticalCount == 0
  {
    if reply.Err? {
      return Err("Validation failed: " + reply.error);
    }
    var v := ParseValidation(reply.value);
    NoCriticalCount(v.issues);
    r := Ok(v);
  }

  /** A well-formed issue line reads back as its severity, category and description. */
  lemma IssueRoundTrip(sev: Severity, category: String, description: String)
    requires category != [] && ']' !in category
    requires description != [] && !IsSpace(description[0])
    ensures ParseIssue("[" + SeverityName(sev) + "] [" + category + "] " + description) ==
      Issue(sev, Strip(category), Strip(description))
  {
    IssuePatternOf(sev, category, description);
    StripSpacePrefix(description);
  }

  lemma IssuePatternOf(sev: Severity, category: String, description: String)
    requires category != [] && ']' !in category && description != []
    ensures IssuePattern("[" + SeverityName(sev) + "] [" + category + "] " + description) ==
      Some((sev, category, " " + description))
  {
    var name := SeverityName(sev);
    var t := "[" + name + "] [" + category + "] " + description;
    var u := "[" + category + "] " + description;
    assert t == ("[" + name + "]") + (" " + u);
    assert t[1..|name| + 1] == name;
    SeverityPrefixOf(sev, t);
    assert t[|name| + 2..] == " " + u;
    CategoryAfterPrefix(t, sev, |name| + 2, category, description);
  }

  /** After the severity prefix: a space, the bracketed category, and the rest. */
  lemma CategoryAfterPrefix(t: String, sev: Severity, n: nat, category: String, description: String)
    requires SeverityPrefix(t) == Some((sev, n)) && n <= |t|
    requires t[n..] == " " + ("[" + category + "] " + description)
    requires category != [] && ']' !in category && description != []
    ensures IssuePattern(t) == Some((sev, category, " " + description))
  {
    var u := "[" + category + "] " + description;
    LStripSpaceBracket(u);
    BracketPartOf(u, category, description);
  }

  lemma BracketPartOf(u: String, category: String, description: String)
    requires u == "[" + category + "] " + description
    requires category != [] && ']' !in category && description != []
    ensures BracketPart(u) == Some((category, " " + description))
  {
    var j := |category| + 1;
    FirstBracket(u, category, "] " + description);
    assert u[1..j] == category;
    assert u[j + 1..] == " " + description;
  }

  lemma LStripSpaceBracket(u: String)
    requires u != [] && u[0] == '['
    ensures LStrip(" " + u) == u
  {
    assert (" " + u)[1..] == u;
  }

  lemma UpperIdentity(w: String)
    requires forall k :: 0 <= k < |w| ==> 'A' <= w[k] <= 'Z'
    ensures UpperEquals(w, w)
  {
    UpperEqualsIff(w, w);
  }

  lemma SeverityPrefixOf(sev: Severity, t: String)
    requires var w := SeverityName(sev); |t| >= |w| + 2 && t[0] == '[' && t[1..|w| + 1] == w && t[|w| + 1] == ']'
    ensures SeverityPrefix(t) == Some((sev, |SeverityName(sev)| + 2))
  {
    var w := SeverityName(sev);
    UpperIdentity(w);
    match sev
    case Critical =>
    case Warning =>
      assert t[1] == 'W';
    case Info =>
      assert t[1] == 'I';
  }

  lemma FirstBracket(u: String, category: String, tail: String)
    requires u == "[" + category + tail && ']' !in category && |tail| > 0 && tail[0] == ']'
    ensures Find(u, "]") == |category| + 1
  {
    var j := |category| + 1;
    assert u[j..j + 1] == "]";
    forall k | 0 <= k < j ensures !OccursAt(u, "]", k) {
      assert u[k..k + 1] == [u[k]];
      if k > 0 {
        assert u[k] == category[k - 1];
      }
    }
    FindFirst(u, "]", j);
  }
}
