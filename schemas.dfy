/**
 * The structured-output schemas the agents hand to providers that support
 * them: one record type per schema, with the 1..100 score bound as a subset
 * type, and the check a JSON object must pass to be read as each record.
 * Only strict JSON types are accepted (a JSON string is not read as an int).
 */
module ResponseSchemas {
  import opened Text
  import opened Wrappers
  import opened Json
  import ResumeRescorer

  /** `int = Field(ge=1, le=100)`. */
  type Score = s: int | 1 <= s <= 100 witness 1

  datatype SuggestionSchema = SuggestionSchema(category: String, text: String, suggestedText: String)

  datatype ResumeAnalysisSchema = ResumeAnalysisSchema(score: Score, analysis: String, suggestions: seq<SuggestionSchema>)

  datatype ResumeScoreSchema = ResumeScoreSchema(score: Score, analysis: String)

  datatype OptimizationSuggestionSchema = OptimizationSuggestionSchema(category: String, description: String, impact: String)

  datatype OptimizationAnalysisSchema = OptimizationAnalysisSchema(
    analysis: String, currentWordCount: int, suggestions: seq<OptimizationSuggestionSchema>)

  datatype OptimizedResumeSchema = OptimizedResumeSchema(
    optimizedResume: String, wordCountBefore: int, wordCountAfter: int, wordsRemoved: int,
    summary: String, changesMade: seq<String>)

  datatype RescoreSchema = RescoreSchema(
    newScore: Score, comparison: String, improvements: seq<String>, concerns: seq<String>,
    recommendation: String, reasoning: String, scoreDropExplanation: String)

  datatype ValidationIssueSchema = ValidationIssueSchema(severity: String, category: String, description: String)

  datatype ValidationSchema = ValidationSchema(
    validationScore: Score, isValid: bool, issues: seq<ValidationIssueSchema>,
    recommendations: seq<String>, summary: String)

  // ---------------------------------------------------------------------
  // Field checks
  // ---------------------------------------------------------------------

  /** A required string member. */
  function Str(fields: seq<(String, Json)>, key: String): (r: Option<String>)
    ensures r.Some? <==> Get(fields, key).Some? && Get(fields, key).value.JString?
  {
    match Get(fields, key)
    case Some(JString(s)) => Some(s)
    case _ => None
  }

  /** A required integer member. */
  function Int(fields: seq<(String, Json)>, key: String): (r: Option<int>)
    ensures r.Some? <==> Get(fields, key).Some? && Get(fields, key).value.JInt?
  {
    match Get(fields, key)
    case Some(JInt(i)) => Some(i)
    case _ => None
  }

  /** A JSON value read as a score: an integer from 1 to 100. */
  function ScoreOf(v: Json): (r: Option<Score>)
    ensures r.Some? <==> v.JInt? && 1 <= v.i <= 100
    ensures r.Some? ==> r.value == v.i
  {
    if v.JInt? && 1 <= v.i <= 100 then Some(v.i) else None
  }

  /** A required score member. */
  function ScoreField(fields: seq<(String, Json)>, key: String): (r: Option<Score>)
    ensures r.Some? <==> Get(fields, key).Some? && ScoreOf(Get(fields, key).value).Some?
  {
    match Get(fields, key)
    case Some(v) => ScoreOf(v)
    case None => None
  }

  /** A JSON array read as a list of strings. */
  function Strings(items: seq<Json>): (r: Option<seq<String>>)
    ensures r.Some? <==> forall k :: 0 <= k < |items| ==> items[k].JString?
    ensures r.Some? ==> |r.value| == |items| && forall k :: 0 <= k < |items| ==> r.value[k] == items[k].s
  {
    if items == [] then Some([])
    else
      var last := items[|items| - 1];
      match Strings(items[..|items| - 1])
      case None => None
      case Some(init) => if last.JString? then Some(init + [last.s]) else None
  }

  /** A required list-of-strings member. */
  function StrList(fields: seq<(String, Json)>, key: String): Option<seq<String>> {
    match Get(fields, key)
    case Some(JArray(items)) => Strings(items)
    case _ => None
  }

  /** A JSON value read as a list of records, each read by `read`. */
  function Records<T>(items: seq<Json>, read: seq<(String, Json)> -> Option<T>): (r: Option<seq<T>>)
    ensures r.Some? <==> forall k :: 0 <= k < |items| ==> items[k].JObject? && read(items[k].fields).Some?
    ensures r.Some? ==> |r.value| == |items| && forall k :: 0 <= k < |items| ==> r.value[k] == read(items[k].fields).value
  {
    if items == [] then Some([])
    else
      var last := items[|items| - 1];
      match Records(items[..|items| - 1], read)
      case None => None
      case Some(init) =>
        if last.JObject? && read(last.fields).Some? then Some(init + [read(last.fields).value]) else None
  }

  function RecordList<T>(fields: seq<(String, Json)>, key: String, read: seq<(String, Json)> -> Option<T>): Option<seq<T>> {
    match Get(fields, key)
    case Some(JArray(items)) => Records(items, read)
    case _ => None
  }

  // ---------------------------------------------------------------------
  // Schemas
  // ---------------------------------------------------------------------

  /** `SuggestionSchema`: exactly the three string members `category`, `text` and `suggested_text` are read. */
  function ReadSuggestion(fields: seq<(String, Json)>): (r: Option<SuggestionSchema>)
    ensures r.Some? <==> Str(fields, "category").Some? && Str(fields, "text").Some? && Str(fields, "suggested_text").Some?
    ensures r.Some? ==> r.value == SuggestionSchema(Str(fields, "category").value, Str(fields, "text").value, Str(fields, "suggested_text").value)
  {
    var category := Str(fields, "category");
    var text := Str(fields, "text");
    var suggested := Str(fields, "suggested_text");
    if category.Some? && text.Some? && suggested.Some? then
      Some(SuggestionSchema(category.value, text.value, suggested.value))
    else None
  }

  function ReadResumeAnalysis(fields: seq<(String, Json)>): (r: Option<ResumeAnalysisSchema>)
    ensures r.Some? ==> ScoreField(fields, "score") == Some(r.value.score)
  {
    var score := ScoreField(fields, "score");
    var analysis := Str(fields, "analysis");
    var suggestions := RecordList(fields, "suggestions", ReadSuggestion);
    if score.Some? && analysis.Some? && suggestions.Some? then
      Some(ResumeAnalysisSchema(score.value, analysis.value, suggestions.value))
    else None
  }

  function ReadResumeScore(fields: seq<(String, Json)>): (r: Option<ResumeScoreSchema>)
    ensures r.Some? <==> ScoreField(fields, "score").Some? && Str(fields, "analysis").Some?
  {
    var score := ScoreField(fields, "score");
    var analysis := Str(fields, "analysis");
    if score.Some? && analysis.Some? then Some(ResumeScoreSchema(score.value, analysis.value)) else None
  }

  function ReadOptimizationSuggestion(fields: seq<(String, Json)>): (r: Option<OptimizationSuggestionSchema>)
    ensures r.Some? <==> Str(fields, "category").Some? && Str(fields, "description").Some? && Str(fields, "impact").Some?
  {
    var category := Str(fields, "category");
    var description := Str(fields, "description");
    var impact := Str(fields, "impact");
    if category.Some? && description.Some? && impact.Some? then
      Some(OptimizationSuggestionSchema(category.value, description.value, impact.value))
    else None
  }

  function ReadOptimizationAnalysis(fields: seq<(String, Json)>): (r: Option<OptimizationAnalysisSchema>)
    ensures r.Some? ==> Int(fields, "current_word_count") == Some(r.value.currentWordCount)
  {
    var analysis := Str(fields, "analysis");
    var count := Int(fields, "current_word_count");
    var suggestions := RecordList(fields, "suggestions", ReadOptimizationSuggestion);
    if analysis.Some? && count.Some? && suggestions.Some? then
      Some(OptimizationAnalysisSchema(analysis.value, count.value, suggestions.value))
    else None
  }

  /** `OptimizedResumeSchema`: the word counts are plain integers; nothing ties them to each other or to the resume. */
  function ReadOptimizedResume(fields: seq<(String, Json)>): (r: Option<OptimizedResumeSchema>)
    ensures r.Some? ==> Int(fields, "words_removed") == Some(r.value.wordsRemoved)
  {
    var resume := Str(fields, "optimized_resume");
    var before := Int(fields, "word_count_before");
    var after := Int(fields, "word_count_after");
    var removed := Int(fields, "words_removed");
    var summary := Str(fields, "summary");
    var changes := StrList(fields, "changes_made");
    if resume.Some? && before.Some? && after.Some? && removed.Some? && summary.Some? && changes.Some? then
      Some(OptimizedResumeSchema(resume.value, before.value, after.value, removed.value, summary.value, changes.value))
    else None
  }

  /** `score_drop_explanation: str = ""`: an absent member reads as the empty text. */
  function DropExplanation(fields: seq<(String, Json)>): (r: Option<String>)
    ensures Get(fields, "score_drop_explanation").None? ==> r == Some("")
    ensures Get(fields, "score_drop_explanation").Some? ==> r == Str(fields, "score_drop_explanation")
  {
    match Get(fields, "score_drop_explanation")
    case None => Some("")
    case Some(JString(s)) => Some(s)
    case Some(_) => None
  }

  function ReadRescore(fields: seq<(String, Json)>): (r: Option<RescoreSchema>)
    ensures r.Some? ==> ScoreField(fields, "new_score") == Some(r.value.newScore)
    ensures r.Some? && Get(fields, "score_drop_explanation").None? ==> r.value.scoreDropExplanation == ""
  {
    var score := ScoreField(fields, "new_score");
    var comparison := Str(fields, "comparison");
    var improvements := StrList(fields, "improvements");
    var concerns := StrList(fields, "concerns");
    var recommendation := Str(fields, "recommendation");
    var reasoning := Str(fields, "reasoning");
    var drop := DropExplanation(fields);
    if score.Some? && comparison.Some? && improvements.Some? && concerns.Some? && recommendation.Some?
      && reasoning.Some? && drop.Some? then
      Some(RescoreSchema(score.value, comparison.value, improvements.value, concerns.value,
        recommendation.value, reasoning.value, drop.value))
    else None
  }

  function ReadValidationIssue(fields: seq<(String, Json)>): (r: Option<ValidationIssueSchema>)
    ensures r.Some? <==> Str(fields, "severity").Some? && Str(fields, "category").Some? && Str(fields, "description").Some?
  {
    var severity := Str(fields, "severity");
    var category := Str(fields, "category");
    var description := Str(fields, "description");
    if severity.Some? && category.Some? && description.Some? then
      Some(ValidationIssueSchema(severity.value, category.value, description.value))
    else None
  }

  /** `ValidationSchema`: `is_valid` is read as given; the validity rule in its description is not checked. */
  function ReadValidation(fields: seq<(String, Json)>): (r: Option<ValidationSchema>)
    ensures r.Some? ==> ScoreField(fields, "validation_score") == Some(r.value.validationScore)
    ensures r.Some? ==> Get(fields, "is_valid") == Some(JBool(r.value.isValid))
  {
    var score := ScoreField(fields, "validation_score");
    var valid := Get(fields, "is_valid");
    var issues := RecordList(fields, "issues", ReadValidationIssue);
    var recommendations := StrList(fields, "recommendations");
    var summary := Str(fields, "summary");
    if score.Some? && valid.Some? && valid.value.JBool? && issues.Some? && recommendations.Some? && summary.Some? then
      Some(ValidationSchema(score.value, valid.value.b, issues.value, recommendations.value, summary.value))
    else None
  }

  // ---------------------------------------------------------------------
  // Schema bounds against the parsers' own rules
  // ---------------------------------------------------------------------

  /**
   * The rescoring parser's result always satisfies the schema bound when the
   * original score is not negative, but it never keeps a schema-valid score
   * above 10: such a score is replaced by `min(10, original_score + 1)`.
   */
  lemma RescoreClampNarrowerThanSchema(newScore: Score, originalScore: int)
    ensures originalScore >= 0 ==> 1 <= ResumeRescorer.FinalScore(Some(newScore), originalScore) <= 100
    ensures newScore > 10 ==>
      ResumeRescorer.FinalScore(Some(newScore), originalScore) == (if originalScore + 1 < 10 then originalScore + 1 else 10)
    ensures newScore > 10 ==> ResumeRescorer.FinalScore(Some(newScore), originalScore) != newScore
  {
  }

  lemma RecordsOne<T>(x: Json, read: seq<(String, Json)> -> Option<T>)
    requires x.JObject? && read(x.fields).Some?
    ensures Records([x], read) == Some([read(x.fields).value])
  {
    var r := Records([x], read);
    assert [x][0] == x;
    assert r.Some? && |r.value| == 1;
    assert r.value == [r.value[0]];
  }

  lemma GetLast(fields: seq<(String, Json)>, key: String, v: Json)
    ensures Get(fields + [(key, v)], key) == Some(v)
  {
  }

  lemma GetPast(fields: seq<(String, Json)>, key: String, other: String, v: Json)
    requires other != key
    ensures Get(fields + [(other, v)], key) == Get(fields, key)
  {
    assert (fields + [(other, v)])[..|fields|] == fields;
  }

  /** The members of a validation answer, in the order the schema lists them. */
  function ValidationMembers(score: int, valid: bool, issues: seq<Json>, recommendations: seq<Json>, summary: String): seq<(String, Json)> {
    [("validation_score", JInt(score))] + [("is_valid", JBool(valid))] + [("issues", JArray(issues))]
      + [("recommendations", JArray(recommendations))] + [("summary", JString(summary))]
  }

  lemma ValidationLookups(score: int, valid: bool, issues: seq<Json>, recommendations: seq<Json>, summary: String)
    ensures var fields := ValidationMembers(score, valid, issues, recommendations, summary);
      && Get(fields, "validation_score") == Some(JInt(score))
      && Get(fields, "is_valid") == Some(JBool(valid))
      && Get(fields, "issues") == Some(JArray(issues))
      && Get(fields, "recommendations") == Some(JArray(recommendations))
      && Get(fields, "summary") == Some(JString(summary))
  {
    var f1 := [("validation_score", JInt(score))];
    var f2 := f1 + [("is_valid", JBool(valid))];
    var f3 := f2 + [("issues", JArray(issues))];
    var f4 := f3 + [("recommendations", JArray(recommendations))];
    GetLast([], "validation_score", JInt(score));
    GetPast(f1, "validation_score", "is_valid", JBool(valid));
    GetPast(f2, "validation_score", "issues", JArray(issues));
    GetPast(f3, "validation_score", "recommendations", JArray(recommendations));
    GetPast(f4, "validation_score", "summary", JString(summary));
    GetLast(f1, "is_valid", JBool(valid));
    GetPast(f2, "is_valid", "issues", JArray(issues));
    GetPast(f3, "is_valid", "recommendations", JArray(recommendations));
    GetPast(f4, "is_valid", "summary", JString(summary));
    GetLast(f2, "issues", JArray(issues));
    GetPast(f3, "issues", "recommendations", JArray(recommendations));
    GetPast(f4, "issues", "summary", JString(summary));
    GetLast(f3, "recommendations", JArray(recommendations));
    GetPast(f4, "recommendations", "summary", JString(summary));
    GetLast(f4, "summary", JString(summary));
  }

  /** A validation record written out as JSON members is read back as it was. */
  lemma ValidationReadBack(v: ValidationSchema, issues: seq<Json>, recommendations: seq<Json>)
    requires Records(issues, ReadValidationIssue) == Some(v.issues)
    requires Strings(recommendations) == Some(v.recommendations)
    ensures ReadValidation(ValidationMembers(v.validationScore, v.isValid, issues, recommendations, v.summary)) == Some(v)
  {
    ValidationLookups(v.validationScore, v.isValid, issues, recommendations, v.summary);
  }

  /**
   * The schema accepts a validation answer that breaks its own stated rule
   * (score at least 80 and no CRITICAL issue): score 40, `is_valid` true and
   * a CRITICAL issue are read as given.
   */
  lemma ValidityRuleNotEnforced(issue: seq<(String, Json)>)
    requires ReadValidationIssue(issue) == Some(ValidationIssueSchema("CRITICAL", "Markdown", "Missing backslash"))
    ensures ReadValidation(ValidationMembers(40, true, [JObject(issue)], [], ""))
      == Some(ValidationSchema(40, true, [ValidationIssueSchema("CRITICAL", "Markdown", "Missing backslash")], [], ""))
  {
    var v := ValidationSchema(40, true, [ValidationIssueSchema("CRITICAL", "Markdown", "Missing backslash")], [], "");
    RecordsOne(JObject(issue), ReadValidationIssue);
    ValidationReadBack(v, [JObject(issue)], []);
  }
}
