/**
 * Cover-letter review: the reviewer's answer is cleaned of doubled braces,
 * the first-`{`-to-last-`}` span is parsed as JSON, and a fixed fallback is
 * returned when it does not parse.
 */
module CoverLetterReviewer {
  import opened Text
  import opened Wrappers
  import opened Json
  import opened ResponseExtraction

  /** `response.replace('{{', '{').replace('}}', '}')`. */
  function CleanBraces(response: String): String {
    Replace(Replace(response, "{{", "{"), "}}", "}")
  }

  /** The text handed to `json.loads`: the `\{.*\}` match (dot matching newlines), else everything. */
  function ParseTarget(cleaned: String): (t: String)
    ensures t == if BraceSpan(cleaned).Some? then BraceSpan(cleaned).value else cleaned
  {
    RegexMatchesBraceSpan(cleaned);
    var m := RegexBraceMatch(cleaned);
    if m.Some? then m.value else cleaned
  }

  const ReviewFallback: Json := JObject([
    ("overall_assessment", JString("Unable to parse review results. Please try again.")),
    ("critical_issues", JArray([])),
    ("content_issues", JArray([])),
    ("minor_issues", JArray([])),
    ("strengths", JArray([])),
    ("revision_needed", JBool(false)),
    ("revision_priority", JString("none"))
  ])

  const AssessmentFallback: Json := JObject([
    ("issues_resolved", JArray([])),
    ("issues_remaining", JArray([])),
    ("new_issues", JArray([])),
    ("approval_status", JString("approved")),
    ("final_comments", JString("Unable to parse assessment results. Proceeding with revision.")),
    ("improvement_score", JInt(5))
  ])

  /** Parse the cleaned answer, or fall back; a client error is not caught. */
  function ParseOrFallback(reply: Result<String>, parse: Parser, fallback: Json): (r: Result<Json>)
    ensures reply.Err? ==> r == Err(reply.error)
    ensures reply.Ok? ==> r.Ok?
    ensures reply.Ok? && parse(ParseTarget(CleanBraces(reply.value))).None? ==> r.value == fallback
    ensures reply.Ok? && parse(ParseTarget(CleanBraces(reply.value))).Some? ==>
      r.value == parse(ParseTarget(CleanBraces(reply.value))).value
  {
    match reply
    case Err(e) => Err(e)
    case Ok(response) =>
      match parse(ParseTarget(CleanBraces(response)))
      case Some(j) => Ok(j)
      case None => Ok(fallback)
  }

  /** `review_cover_letter` after the client call. */
  function ReviewCoverLetter(reply: Result<String>, parse: Parser): (r: Result<Json>)
    ensures reply.Ok? && parse(ParseTarget(CleanBraces(reply.value))).None? ==>
      r == Ok(ReviewFallback) && Get(ReviewFallback.fields, "revision_needed") == Some(JBool(false))
  {
    ParseOrFallback(reply, parse, ReviewFallback)
  }

  /** `assess_revision_quality` after the client call. */
  function AssessRevisionQuality(reply: Result<String>, parse: Parser): (r: Result<Json>)
    ensures reply.Ok? && parse(ParseTarget(CleanBraces(reply.value))).None? ==>
      r == Ok(AssessmentFallback) && Get(AssessmentFallback.fields, "approval_status") == Some(JString("approved"))
  {
    ParseOrFallback(reply, parse, AssessmentFallback)
  }

  lemma {:induction false} CollapseCloses(s: String)
    ensures CountChar(Replace(s, "}}", "}"), '}') + (if Contains(s, "}}") then 1 else 0) <= CountChar(s, '}')
    ensures CountChar(Replace(s, "}}", "}"), '{') == CountChar(s, '{')
    decreases |s|
  {
    var i := Find(s, "}}");
    if i >= 0 {
      var rest := s[i + 2..];
      CollapseCloses(rest);
      assert s == s[..i] + "}}" + rest;
      CountCharAppend(s[..i] + "}}", rest, '}');
      CountCharAppend(s[..i], "}}", '}');
      CountCharAppend(s[..i] + "}", Replace(rest, "}}", "}"), '}');
      CountCharAppend(s[..i], "}", '}');
      CountCharAppend(s[..i] + "}}", rest, '{');
      CountCharAppend(s[..i], "}}", '{');
      CountCharAppend(s[..i] + "}", Replace(rest, "}}", "}"), '{');
      CountCharAppend(s[..i], "}", '{');
      assert ("}}")[..1] == "}";
      assert ("}")[..0] == "";
    }
  }

  /**
   * The cleanup is not brace-neutral: an answer without `{{` that closes two
   * objects at once (`{"a": {"b": 1}}`) keeps all its `{` but loses a `}`.
   */
  lemma CleanupUnbalancesNestedClose(s: String)
    requires !Contains(s, "{{") && Contains(s, "}}")
    ensures CountChar(CleanBraces(s), '{') == CountChar(s, '{')
    ensures CountChar(CleanBraces(s), '}') < CountChar(s, '}')
  {
    assert Replace(s, "{{", "{") == s;
    CollapseCloses(s);
  }
}
