/**
 * The resume rescorer (agent 3): the line parser that reads the model's
 * marked answer (`NEW_SCORE:`, `COMPARISON:`, `IMPROVEMENTS:`,
 * `REMAINING_CONCERNS:`, `RECOMMENDATION:`, `REASONING:`) and clamps the new
 * score into 1..10.
 */
module ResumeRescorer {
  import opened Text
  import opened Wrappers
  import opened ResumeScorer

  datatype Part = NoPart | ScorePart | ComparisonPart | ImprovementsPart | ConcernsPart | RecommendationPart | ReasoningPart

  /** The part a stripped line opens, tried in the parser's order. */
  function MarkerOf(l: String): Option<Part> {
    if StartsWith(l, "NEW_SCORE:") then Some(ScorePart)
    else if StartsWith(l, "COMPARISON:") then Some(ComparisonPart)
    else if StartsWith(l, "IMPROVEMENTS:") then Some(ImprovementsPart)
    else if StartsWith(l, "REMAINING_CONCERNS:") then Some(ConcernsPart)
    else if StartsWith(l, "RECOMMENDATION:") then Some(RecommendationPart)
    else if StartsWith(l, "REASONING:") then Some(ReasoningPart)
    else None
  }

  /** The part in force after the first `n` lines. */
  function PartAt(lines: seq<String>, n: nat): Part
    requires n <= |lines|
  {
    if n == 0 then NoPart
    else match MarkerOf(Strip(lines[n - 1]))
      case Some(p) => p
      case None => PartAt(lines, n - 1)
  }

  /** The value of the last `NEW_SCORE:` line among the first `n`, if any. */
  function NewScoreAt(lines: seq<String>, n: nat, originalScore: int): Option<int>
    requires n <= |lines|
  {
    if n == 0 then None
    else
      var l := Strip(lines[n - 1]);
      if MarkerOf(l) == Some(ScorePart) then Some(MarkedNumber(l, "NEW_SCORE:", originalScore + 1))
      else NewScoreAt(lines, n - 1, originalScore)
  }

  function RecommendationOf(l: String): String {
    var rec := Strip(Replace(l, "RECOMMENDATION:", ""));
    if Contains(rec, "Ready") || Contains(rec, "ready") then "Ready to Submit" else "Needs More Work"
  }

  /** The verdict of the last `RECOMMENDATION:` line among the first `n`, "Needs More Work" without one. */
  function RecommendationAt(lines: seq<String>, n: nat): String
    requires n <= |lines|
  {
    if n == 0 then "Needs More Work"
    else
      var l := Strip(lines[n - 1]);
      if MarkerOf(l) == Some(RecommendationPart) then RecommendationOf(l) else RecommendationAt(lines, n - 1)
  }

  /** The stripped non-empty non-marker lines read while `part` is in force. */
  function TextLines(lines: seq<String>, n: nat, part: Part): seq<String>
    requires n <= |lines|
  {
    if n == 0 then []
    else
      var l := Strip(lines[n - 1]);
      var keep := MarkerOf(l).None? && l != [] && PartAt(lines, n - 1) == part;
      TextLines(lines, n - 1, part) + (if keep then [l] else [])
  }

  /** The dash lines read while `part` is in force, without the dash and stripped. */
  function DashLines(lines: seq<String>, n: nat, part: Part): seq<String>
    requires n <= |lines|
  {
    if n == 0 then []
    else
      var l := Strip(lines[n - 1]);
      var keep := MarkerOf(l).None? && StartsWith(l, "-") && PartAt(lines, n - 1) == part;
      DashLines(lines, n - 1, part) + (if keep then [Strip(l[1..])] else [])
  }

  /** A missing or out-of-range new score becomes `min(10, original_score + 1)`. */
  function FinalScore(newScore: Option<int>, originalScore: int): (r: int)
    ensures r <= 10
    ensures originalScore >= 0 ==> 1 <= r
    ensures newScore.Some? && 1 <= newScore.value <= 10 ==> r == newScore.value
  {
    if newScore.None? || newScore.value < 1 || newScore.value > 10 then
      if originalScore + 1 < 10 then originalScore + 1 else 10
    else newScore.value
  }

  datatype Rescore = Rescore(
    newScore: int, originalScore: int, scoreImprovement: int,
    comparison: String, improvements: seq<String>, concerns: seq<String>,
    recommendation: String, reasoning: String)

  function JoinedOr(parts: seq<String>, default: String): String {
    if parts == [] then default else Join("\n", parts)
  }

  lemma RescoreStep(lines: seq<String>, i: nat, originalScore: int)
    requires i < |lines|
    ensures var l := Strip(lines[i]);
      && PartAt(lines, i + 1) == (if MarkerOf(l).Some? then MarkerOf(l).value else PartAt(lines, i))
      && NewScoreAt(lines, i + 1, originalScore) ==
           (if MarkerOf(l) == Some(ScorePart) then Some(MarkedNumber(l, "NEW_SCORE:", originalScore + 1))
            else NewScoreAt(lines, i, originalScore))
      && RecommendationAt(lines, i + 1) ==
           (if MarkerOf(l) == Some(RecommendationPart) then RecommendationOf(l) else RecommendationAt(lines, i))
  {
  }

  lemma CollectStep(lines: seq<String>, i: nat, part: Part)
    requires i < |lines|
    ensures var l := Strip(lines[i]);
      && TextLines(lines, i + 1, part) ==
           TextLines(lines, i, part) + (if MarkerOf(l).None? && l != [] && PartAt(lines, i) == part then [l] else [])
      && DashLines(lines, i + 1, part) ==
           DashLines(lines, i, part) + (if MarkerOf(l).None? && StartsWith(l, "-") && PartAt(lines, i) == part then [Strip(l[1..])] else [])
  {
  }

  const MarkersBesidesReasoning: seq<String> := ["IMPROVEMENTS:", "NEW_SCORE:", "REMAINING_CONCERNS:", "RECOMMENDATION:", "REASONING:"]
  const MarkersBesidesComparison: seq<String> := ["IMPROVEMENTS:", "NEW_SCORE:", "REMAINING_CONCERNS:", "RECOMMENDATION:", "COMPARISON:"]

  /** The inner marker tests of the comparison and reasoning branches never reject a line. */
  lemma InnerGuardsNeverReject(l: String)
    requires MarkerOf(l).None?
    ensures !StartsWithAny(l, MarkersBesidesReasoning) && !StartsWithAny(l, MarkersBesidesComparison)
  {
  }

  /** `r` is what the rescorer's parser reports for the stripped response lines `lines`, against `originalScore`. */
  ghost predicate ReadsAs(r: Rescore, lines: seq<String>, originalScore: int) {
    var n := |lines|;
    && r.newScore == FinalScore(NewScoreAt(lines, n, originalScore), originalScore)
    && r.originalScore == originalScore
    && r.scoreImprovement == r.newScore - originalScore
    && r.comparison == JoinedOr(TextLines(lines, n, ComparisonPart), "Resume has been updated based on suggestions.")
    && r.improvements == DashLines(lines, n, ImprovementsPart)
    && r.concerns == DashLines(lines, n, ConcernsPart)
    && r.recommendation == RecommendationAt(lines, n)
    && r.reasoning == JoinedOr(TextLines(lines, n, ReasoningPart), "See improvements above.")
  }

  /** `_parse_response` of the rescorer. */
  method ParseRescore(response: String, originalScore: int) returns (r: Rescore)
    ensures ReadsAs(r, Lines(Strip(response)), originalScore)
  {
    var lines := Lines(Strip(response));
    var newScore: Option<int> := None;
    var comparison: seq<String> := [];
    var improvements: seq<String> := [];
    var concerns: seq<String> := [];
    var recommendation: String := "Needs More Work";
    var reasoning: seq<String> := [];
    var part := NoPart;
    for i := 0 to |lines|
      invariant part == PartAt(lines, i)
      invariant newScore == NewScoreAt(lines, i, originalScore)
      invariant recommendation == RecommendationAt(lines, i)
      invariant comparison == TextLines(lines, i, ComparisonPart)
      invariant reasoning == TextLines(lines, i, ReasoningPart)
      invariant improvements == DashLines(lines, i, ImprovementsPart)
      invariant concerns == DashLines(lines, i, ConcernsPart)
    {
      var line := Strip(lines[i]);
      RescoreStep(lines, i, originalScore);
      CollectStep(lines, i, ComparisonPart);
      CollectStep(lines, i, ImprovementsPart);
      CollectStep(lines, i, ConcernsPart);
      CollectStep(lines, i, ReasoningPart);
      if StartsWith(line, "NEW_SCORE:") {
        newScore := Some(MarkedNumber(line, "NEW_SCORE:", originalScore + 1));
        part := ScorePart;
      } else if StartsWith(line, "COMPARISON:") {
        part := ComparisonPart;
      } else if StartsWith(line, "IMPROVEMENTS:") {
        part := ImprovementsPart;
      } else if StartsWith(line, "REMAINING_CONCERNS:") {
        part := ConcernsPart;
      } else if StartsWith(line, "RECOMMENDATION:") {
        recommendation := RecommendationOf(line);
        part := RecommendationPart;
      } else if StartsWith(line, "REASONING:") {
        part := ReasoningPart;
      } else if line != [] && part == ComparisonPart {
        InnerGuardsNeverReject(line);
        if !StartsWithAny(line, MarkersBesidesReasoning) {
          comparison := comparison + [line];
        }
      } else if line != [] && part == ImprovementsPart && StartsWith(line, "-") {
        improvements := improvements + [Strip(line[1..])];
      } else if line != [] && part == ConcernsPart && StartsWith(line, "-") {
        concerns := concerns + [Strip(line[1..])];
      } else if line != [] && part == ReasoningPart {
        InnerGuardsNeverReject(line);
        if !StartsWithAny(line, MarkersBesidesComparison) {
          reasoning := reasoning + [line];
        }
      }
    }
    var score := FinalScore(newScore, originalScore);
    r := Rescore(
      score, originalScore, score - originalScore,
      JoinedOr(comparison, "Resume has been updated based on suggestions."),
      improvements, concerns, recommendation,
      JoinedOr(reasoning, "See improvements above."));
  }

  /** `rescore_resume` after the model call: a client error is re-raised with a prefix. */
  method RescoreResume(reply: Result<String>, originalScore: int) returns (r: Result<Rescore>)
    ensures reply.Err? ==> r == Err("Error rescoring resume: " + reply.error)
    ensures reply.Ok? ==> r.Ok? && ReadsAs(r.value, Lines(Strip(reply.value)), originalScore)
    ensures r.Ok? ==> r.value.newScore <= 10 && r.value.scoreImprovement == r.value.newScore - originalScore
    ensures r.Ok? && originalScore >= 0 ==> 1 <= r.value.newScore
  {
    if reply.Err? {
      return Err("Error rescoring resume: " + reply.error);
    }
    var parsed := ParseRescore(reply.value, originalScore);
    r := Ok(parsed);
  }

  /** The line `NEW_SCORE: n` with `n` in 1..10 gives exactly `n`. */
  lemma NewScoreLineRoundTrip(n: nat, originalScore: int)
    requires 1 <= n <= 10
    ensures FinalScore(Some(MarkedNumber("NEW_SCORE: " + NatToString(n), "NEW_SCORE:", originalScore + 1)), originalScore) == n
  {
    var digits := NatToString(n);
    var line := "NEW_SCORE: " + digits;
    var tail := " " + digits;
    assert line[..10] == "NEW_SCORE:";
    assert Find(line, "NEW_SCORE:") == 0;
    assert line[10..] == tail;
    assert 'N' !in tail by {
      forall k | 0 <= k < |tail| ensures tail[k] != 'N' {
        if k > 0 {
          assert tail[k] == digits[k - 1];
        }
      }
    }
    FindAbsentHead(tail, "NEW_SCORE:", 0);
    ReplaceAbsent(tail, "NEW_SCORE:", "");
    assert Replace(line, "NEW_SCORE:", "") == line[..0] + "" + Replace(line[10..], "NEW_SCORE:", "");
    assert Replace(line, "NEW_SCORE:", "") == tail;
    StripLeadingSpace(digits);
    ParseIntToString(n);
  }
}
