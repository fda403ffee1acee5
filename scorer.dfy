/**
 * The resume scorer (agent 1): job-description truncation by section
 * priority, the reasoning-model gate on structured output, the JSON answer
 * parser with its suggestion list, and the line parser of `score_only`.
 */
module ResumeScorer {
  import opened Text
  import opened Wrappers
  import opened Json
  import opened ResponseExtraction

  const MaxJobDescriptionChars: nat := 30000
  const TruncationMarker: String := "\n[... truncated ...]"

  // ---------------------------------------------------------------------
  // Job-description truncation
  // ---------------------------------------------------------------------

  datatype Section = Responsibilities | Requirements | Qualifications | Skills | Other

  /** The order in which sections are spent against the character budget. */
  const Priority: seq<Section> := [Requirements, Skills, Qualifications, Responsibilities, Other]


  /** Some keyword occurs in `text`. */
  predicate AnyIn(text: String, keywords: seq<String>)
    decreases |keywords|
  {
    |keywords| > 0 && (Contains(text, keywords[0]) || AnyIn(text, keywords[1..]))
  }

  /** The header keyword groups, in the order they are tried. */
  const HeaderGroups: seq<(Section, seq<String>)> := [
    (Responsibilities, ["responsibilities", "duties", "what you'll do"]),
    (Requirements, ["requirements", "required", "must have"]),
    (Qualifications, ["qualifications", "experience", "background"]),
    (Skills, ["skills", "technical", "technologies"])
  ]

  /** The section of the first group with a keyword in `text`. */
  function FirstGroup(text: String, groups: seq<(Section, seq<String>)>): Option<Section>
    decreases |groups|
  {
    if |groups| == 0 then None
    else if AnyIn(text, groups[0].1) then Some(groups[0].0)
    else FirstGroup(text, groups[1..])
  }

  /** The section a header line opens, decided on the lower-cased stripped line. */
  function HeaderOf(line: String): Option<Section> {
    FirstGroup(Strip(Lower(line)), HeaderGroups)
  }

  /** A header test: the section a line opens, if any. */
  type HeaderTest = String -> Option<Section>

  /** The section in force after reading the first `n` lines: that of the last header, else "other". */
  function CurrentAt(header: HeaderTest, lines: seq<String>, n: nat): Section
    requires n <= |lines|
  {
    if n == 0 then Other
    else match header(lines[n - 1])
      case Some(s) => s
      case None => CurrentAt(header, lines, n - 1)
  }

  /** `not line.strip()`: the line is whitespace only (`Strip(line) == []` exactly then). */
  predicate Blank(line: String) {
    AllSpace(line)
  }

  /** The non-blank lines among the first `n` filed under section `s`, in input order. */
  function SectionLines(header: HeaderTest, lines: seq<String>, n: nat, s: Section): seq<String>
    requires n <= |lines|
  {
    if n == 0 then []
    else
      var earlier := SectionLines(header, lines, n - 1, s);
      if !Blank(lines[n - 1]) && CurrentAt(header, lines, n) == s then earlier + [lines[n - 1]] else earlier
  }

  function NonBlankCount(lines: seq<String>, n: nat): nat
    requires n <= |lines|
  {
    if n == 0 then 0 else NonBlankCount(lines, n - 1) + (if Blank(lines[n - 1]) then 0 else 1)
  }

  /** Line `n - 1` joins the section in force after it, when it is not blank. */
  lemma SectionLinesStep(header: HeaderTest, lines: seq<String>, n: nat, s: Section)
    requires 0 < n <= |lines|
    ensures SectionLines(header, lines, n, s) == SectionLines(header, lines, n - 1, s)
      + (if !Blank(lines[n - 1]) && CurrentAt(header, lines, n) == s then [lines[n - 1]] else [])
  {
  }

  /** Every non-blank line lands in exactly one section and blank lines in none. */
  lemma {:induction false} SectionsPartition(header: HeaderTest, lines: seq<String>, n: nat)
    requires n <= |lines|
    ensures |SectionLines(header, lines, n, Responsibilities)| + |SectionLines(header, lines, n, Requirements)|
          + |SectionLines(header, lines, n, Qualifications)| + |SectionLines(header, lines, n, Skills)|
          + |SectionLines(header, lines, n, Other)| == NonBlankCount(lines, n)
  {
    if n > 0 {
      SectionsPartition(header, lines, n - 1);
    }
  }





  /** A section's text, or what is left of it once the budget ran out. */
  datatype Piece = Whole(text: String) | Cut(text: String)

  function SumLen(ps: seq<Piece>): nat
    decreases |ps|
  {
    if |ps| == 0 then 0 else SumLen(ps[..|ps| - 1]) + |ps[|ps| - 1].text|
  }

  function ContentLen(cs: seq<String>): nat
    decreases |cs|
  {
    if |cs| == 0 then 0 else ContentLen(cs[..|cs| - 1]) + |cs[|cs| - 1]|
  }

  function NonEmptyWhole(cs: seq<String>): seq<Piece>
    decreases |cs|
  {
    if |cs| == 0 then []
    else (if |cs[0]| > 0 then [Whole(cs[0])] else []) + NonEmptyWhole(cs[1..])
  }

  lemma {:induction false} ContentLenCons(cs: seq<String>)
    requires |cs| > 0
    ensures ContentLen(cs) == |cs[0]| + ContentLen(cs[1..])
    decreases |cs|
  {
    if |cs| > 1 {
      ContentLenCons(cs[..|cs| - 1]);
      assert cs[..|cs| - 1][1..] == cs[1..][..|cs[1..]| - 1];
    }
  }

  lemma {:induction false} SumLenCons(p: Piece, ps: seq<Piece>)
    ensures SumLen([p] + ps) == |p.text| + SumLen(ps)
    decreases |ps|
  {
    if |ps| > 0 {
      SumLenCons(p, ps[..|ps| - 1]);
      assert ([p] + ps)[..|ps|] == [p] + ps[..|ps| - 1];
    }
  }

  /**
   * Spend `budget` on the sections in order: empty sections are skipped, a
   * section that fits is kept whole, the first that does not is cut to what
   * is left and ends the selection.
   */
  function Pack(contents: seq<String>, budget: int): (ps: seq<Piece>)
    ensures |ps| <= |contents|
    decreases |contents|
  {
    if |contents| == 0 then []
    else
      var c := contents[0];
      if |c| > 0 && budget > 0 then
        if |c| <= budget then [Whole(c)] + Pack(contents[1..], budget - |c|)
        else [Cut(c[..budget])]
      else
        Pack(contents[1..], budget)
  }

  /** The characters kept never exceed the budget. */
  lemma {:induction false} PackWithinBudget(contents: seq<String>, budget: int)
    requires budget >= 0
    ensures SumLen(Pack(contents, budget)) <= budget
    decreases |contents|
  {
    if |contents| > 0 {
      var c := contents[0];
      if |c| > 0 && budget > 0 {
        if |c| <= budget {
          PackWithinBudget(contents[1..], budget - |c|);
          SumLenCons(Whole(c), Pack(contents[1..], budget - |c|));
        } else {
          assert SumLen([Cut(c[..budget])]) == SumLen([]) + budget;
        }
      } else {
        PackWithinBudget(contents[1..], budget);
      }
    }
  }

  /** Only the last piece can be cut, and no piece is empty. */
  lemma {:induction false} PackShape(contents: seq<String>, budget: int)
    ensures forall k :: 0 <= k < |Pack(contents, budget)| - 1 ==> Pack(contents, budget)[k].Whole?
    ensures forall k :: 0 <= k < |Pack(contents, budget)| ==> |Pack(contents, budget)[k].text| > 0
    decreases |contents|
  {
    if |contents| > 0 {
      var c := contents[0];
      if |c| > 0 && budget > 0 && |c| <= budget {
        var rest := Pack(contents[1..], budget - |c|);
        PackShape(contents[1..], budget - |c|);
        var ps := [Whole(c)] + rest;
        assert Pack(contents, budget) == ps;
        forall k | 0 <= k < |ps| ensures |ps[k].text| > 0 && (k < |ps| - 1 ==> ps[k].Whole?) {
          if k > 0 {
            assert ps[k] == rest[k - 1];
          }
        }
      } else if !(|c| > 0 && budget > 0) {
        PackShape(contents[1..], budget);
      }
    }
  }

  /** When everything fits, every non-empty section is kept whole. */
  lemma {:induction false} PackFits(contents: seq<String>, budget: int)
    requires ContentLen(contents) <= budget
    ensures Pack(contents, budget) == NonEmptyWhole(contents)
    decreases |contents|
  {
    if |contents| > 0 {
      var c := contents[0];
      ContentLenCons(contents);
      if |c| > 0 && budget > 0 {
        PackFits(contents[1..], budget - |c|);
      } else {
        PackFits(contents[1..], budget);
      }
    }
  }

  function Render(p: Piece): String {
    match p
    case Whole(t) => t
    case Cut(t) => t + TruncationMarker
  }

  function RenderAll(ps: seq<Piece>): (r: seq<String>)
    ensures |r| == |ps| && forall k :: 0 <= k < |ps| ==> r[k] == Render(ps[k])
  {
    seq(|ps|, k requires 0 <= k < |ps| => Render(ps[k]))
  }

  lemma RenderAllSnoc(ps: seq<Piece>, p: Piece)
    ensures RenderAll(ps + [p]) == RenderAll(ps) + [Render(p)]
  {
  }

  /** The section texts in priority order, each its lines joined by newlines. */
  function PriorityContents(jobDescription: String): (cs: seq<String>)
    ensures |cs| == |Priority|
  {
    var lines := Lines(jobDescription);
    seq(|Priority|, k requires 0 <= k < |Priority| => Join("\n", SectionLines(HeaderOf, lines, |lines|, Priority[k])))
  }

  /**
   * `_truncate_job_description`: short descriptions pass through; longer ones
   * are rebuilt from their sections in priority order within the budget.
   */
  method TruncateJobDescription(jobDescription: String) returns (r: String)
    ensures |jobDescription| <= MaxJobDescriptionChars ==> r == jobDescription
    ensures |jobDescription| > MaxJobDescriptionChars ==>
      r == Join("\n", RenderAll(Pack(PriorityContents(jobDescription), MaxJobDescriptionChars)))
  {
    if |jobDescription| <= MaxJobDescriptionChars {
      return jobDescription;
    }
    var lines := Lines(jobDescription);
    var sections := FileSections(HeaderOf, lines);
    assert forall k :: 0 <= k < |Priority| ==>
      Join("\n", sections[Priority[k]]) == PriorityContents(jobDescription)[k];
    var kept := SpendBudget(seq(|Priority|, k requires 0 <= k < |Priority| => Join("\n", sections[Priority[k]])));
    assert seq(|Priority|, k requires 0 <= k < |Priority| => Join("\n", sections[Priority[k]]))
      == PriorityContents(jobDescription);
    r := Join("\n", kept);
  }

  /** The first loop of the truncation: file every non-blank line under the section in force. */
  method FileSections(header: HeaderTest, lines: seq<String>) returns (sections: map<Section, seq<String>>)
    ensures forall s :: s in sections && sections[s] == SectionLines(header, lines, |lines|, s)
  {
    sections := map[Responsibilities := [], Requirements := [], Qualifications := [], Skills := [], Other := []];
    assert forall s :: s in sections && sections[s] == [] by {
      forall s ensures s in sections && sections[s] == [] {
        match s
        case Responsibilities =>
        case Requirements =>
        case Qualifications =>
        case Skills =>
        case Other =>
      }
    }
    var current := Other;
    for i := 0 to |lines|
      invariant current == CurrentAt(header, lines, i)
      invariant forall s :: s in sections && sections[s] == SectionLines(header, lines, i, s)
    {
      var line := lines[i];
      var opening := header(line);
      if opening.Some? {
        current := opening.value;
      }
      assert current == CurrentAt(header, lines, i + 1);
      if !Blank(line) {
        sections := sections[current := sections[current] + [line]];
      }
      forall s ensures s in sections && sections[s] == SectionLines(header, lines, i + 1, s) {
        SectionLinesStep(header, lines, i + 1, s);
      }
    }
  }

  /** The second loop of the truncation: spend the budget on the sections in priority order. */
  method SpendBudget(contents: seq<String>) returns (result: seq<String>)
    ensures result == RenderAll(Pack(contents, MaxJobDescriptionChars))
  {
    result := [];
    ghost var packed: seq<Piece> := [];
    var budget: int := MaxJobDescriptionChars;
    var k := 0;
    while k < |contents|
      invariant 0 <= k <= |contents|
      invariant budget >= 0
      invariant result == RenderAll(packed)
      invariant packed + Pack(contents[k..], budget) == Pack(contents, MaxJobDescriptionChars)
    {
      var sectionContent := contents[k];
      assert contents[k..][1..] == contents[k + 1..];
      if |sectionContent| > 0 && budget > 0 {
        if |sectionContent| <= budget {
          RenderAllSnoc(packed, Whole(sectionContent));
          result := result + [sectionContent];
          packed := packed + [Whole(sectionContent)];
          budget := budget - |sectionContent|;
        } else {
          RenderAllSnoc(packed, Cut(sectionContent[..budget]));
          result := result + [Render(Cut(sectionContent[..budget]))];
          packed := packed + [Cut(sectionContent[..budget])];
          return;
        }
      }
      k := k + 1;
    }
    assert contents[k..] == [];
  }

  /** The section characters kept from a long description never exceed the budget. */
  lemma TruncationWithinBudget(jobDescription: String)
    ensures SumLen(Pack(PriorityContents(jobDescription), MaxJobDescriptionChars)) <= MaxJobDescriptionChars
  {
    PackWithinBudget(PriorityContents(jobDescription), MaxJobDescriptionChars);
  }

  // ---------------------------------------------------------------------
  // Structured-output gate
  // ---------------------------------------------------------------------

  /** Names of reasoning models, which must think before formatting. */
  predicate IsReasoningModel(modelName: String) {
    var m := Lower(modelName);
    Contains(m, "r1") || Contains(m, "o1") || Contains(m, "reasoning")
  }

  /** Whether `analyze_and_score` passes `response_format` to the client. */
  function UsesResponseFormat(clientAcceptsFormat: bool, formatBuilt: bool, modelName: Option<String>): (r: bool)
    ensures r <==> clientAcceptsFormat && formatBuilt && !(modelName.Some? && IsReasoningModel(modelName.value))
  {
    var name := if modelName.Some? then modelName.value else "";
    clientAcceptsFormat && formatBuilt && !IsReasoningModel(name)
  }

  lemma ReasoningModelNeverGetsFormat(accepts: bool, built: bool, name: String)
    requires IsReasoningModel(name)
    ensures !UsesResponseFormat(accepts, built, Some(name))
  {
  }

  // ---------------------------------------------------------------------
  // JSON answer parsing
  // ---------------------------------------------------------------------

  /** A suggestion as `_parse_response` builds it; `text`, `category` and `edited_text` hold whatever JSON value the answer gave. */
  datatype Suggestion = Suggestion(id: nat, text: Json, category: Json, selected: bool, editedText: Json)

  datatype Analysis = Analysis(score: int, analysis: Json, suggestions: seq<Suggestion>)

  /** Strip the answer and remove a surrounding Markdown code fence. */
  function StripFences(response: String): String {
    var t := Strip(response);
    if StartsWith(t, "```") then
      var nl := Find(t, "\n");
      var u := if nl != -1 then t[nl + 1..] else t;
      if EndsWith(u, "```") then Strip(u[..|u| - 3]) else u
    else t
  }

  lemma FirstNewline(tag: String, rest: String)
    requires '\n' !in tag
    ensures Find("```" + tag + "\n" + rest, "\n") == |tag| + 3
  {
    var s := "```" + tag + "\n" + rest;
    var nl := |tag| + 3;
    assert s[nl..nl + 1] == "\n";
    assert OccursAt(s, "\n", nl);
    forall j | 0 <= j < nl ensures !OccursAt(s, "\n", j) {
      assert s[j..j + 1] == [s[j]];
      if j >= 3 {
        assert s[j] == tag[j - 3];
      }
    }
  }

  /** A fenced answer loses its opening fence line and its closing fence. */
  lemma FenceRemoved(tag: String, body: String)
    requires '\n' !in tag
    ensures StripFences("```" + tag + "\n" + body + "```") == Strip(body)
  {
    var s := "```" + tag + "\n" + body + "```";
    assert s == "```" + tag + "\n" + (body + "```");
    NoEdgeSpaceStrip(s);
    assert StartsWith(s, "```");
    FirstNewline(tag, body + "```");
    var u := s[|tag| + 4..];
    assert u == body + "```";
    assert EndsWith(u, "```");
    assert u[..|u| - 3] == body;
  }

  /** `obj.get(key, default)`: the member's value, of whatever type, or the default when it is absent. */
  function GetOr(fields: seq<(String, Json)>, key: String, default: Json): Json {
    match Get(fields, key)
    case None => default
    case Some(v) => v
  }

  /**
   * The suggestion built from the `k`-th raw entry. Only an entry that is not
   * an object raises; its members are kept whatever their type, and a missing
   * `suggested_text` falls back to the text.
   */
  function MakeSuggestion(k: nat, raw: Json): (r: Result<Suggestion>)
    ensures r.Ok? <==> raw.JObject?
    ensures r.Ok? ==> r.value.id == k && r.value.selected
    ensures r.Ok? ==> forall v :: Get(raw.fields, "text") == Some(v) ==> r.value.text == v
    ensures r.Ok? && Get(raw.fields, "text").None? ==> r.value.text == JString("")
    ensures r.Ok? ==> forall v :: Get(raw.fields, "category") == Some(v) ==> r.value.category == v
    ensures r.Ok? && Get(raw.fields, "category").None? ==> r.value.category == JString("General")
    ensures r.Ok? ==> forall v :: Get(raw.fields, "suggested_text") == Some(v) ==> r.value.editedText == v
    ensures r.Ok? && Get(raw.fields, "suggested_text").None? ==> r.value.editedText == r.value.text
  {
    if !raw.JObject? then Err("'suggestion' object has no attribute 'get'")
    else
      var text := GetOr(raw.fields, "text", JString(""));
      var category := GetOr(raw.fields, "category", JString("General"));
      var edited := GetOr(raw.fields, "suggested_text", text);
      Ok(Suggestion(k, text, category, true, edited))
  }

  /** The suggestions built from the entries from index `k` on, or the first invalid entry's error. */
  function SuggestionsFrom(raw: seq<Json>, k: nat): (r: Result<seq<Suggestion>>)
    requires k <= |raw|
    ensures r.Ok? <==> forall j :: k <= j < |raw| ==> MakeSuggestion(j, raw[j]).Ok?
    ensures r.Ok? ==> (|r.value| == |raw| - k &&
      forall j :: k <= j < |raw| ==> r.value[j - k] == MakeSuggestion(j, raw[j]).value)
    decreases |raw| - k
  {
    if k == |raw| then Ok([])
    else
      match MakeSuggestion(k, raw[k])
      case Err(e) => Err(e)
      case Ok(s) =>
        match SuggestionsFrom(raw, k + 1)
        case Err(e) => Err(e)
        case Ok(rest) => Ok([s] + rest)
  }

  /** The suggestion list, numbered from 0 in input order; it raises exactly when an entry is not an object. */
  function SuggestionsOf(raw: seq<Json>): (r: Result<seq<Suggestion>>)
    ensures r.Ok? <==> forall k :: 0 <= k < |raw| ==> raw[k].JObject?
    ensures r.Ok? ==> |r.value| == |raw|
    ensures r.Ok? ==> forall k :: 0 <= k < |r.value| ==> r.value[k].id == k && r.value[k].selected
  {
    var r := SuggestionsFrom(raw, 0);
    assert r.Ok? ==> forall k :: 0 <= k < |r.value| ==> r.value[k] == MakeSuggestion(k, raw[k]).value;
    r
  }

  lemma {:induction false} FirstInvalidEntry(raw: seq<Json>, k: nat, bad: nat)
    requires k <= bad < |raw|
    requires forall j :: k <= j < bad ==> MakeSuggestion(j, raw[j]).Ok?
    requires MakeSuggestion(bad, raw[bad]).Err?
    ensures SuggestionsFrom(raw, k) == Err(MakeSuggestion(bad, raw[bad]).error)
    decreases bad - k
  {
    if k < bad {
      FirstInvalidEntry(raw, k + 1, bad);
    }
  }

  /** The enumeration loop over the raw suggestions. */
  method BuildSuggestions(raw: seq<Json>) returns (r: Result<seq<Suggestion>>)
    ensures r == SuggestionsOf(raw)
  {
    var out: seq<Suggestion> := [];
    var idx := 0;
    while idx < |raw|
      invariant 0 <= idx <= |raw|
      invariant |out| == idx
      invariant forall k :: 0 <= k < idx ==> MakeSuggestion(k, raw[k]).Ok? && out[k] == MakeSuggestion(k, raw[k]).value
    {
      var s := MakeSuggestion(idx, raw[idx]);
      if s.Err? {
        FirstInvalidEntry(raw, 0, idx);
        return Err(s.error);
      }
      out := out + [s.value];
      idx := idx + 1;
    }
    assert SuggestionsFrom(raw, 0).value == out;
    r := Ok(out);
  }

  /** `score` after the range check; a bool counts as 0 or 1, a non-number raises. */
  function ScoreOf(value: Option<Json>): (r: Result<int>)
    ensures r.Ok? ==> 1 <= r.value <= 100
    ensures value.Some? && value.value.JInt? && 1 <= value.value.i <= 100 ==> r == Ok(value.value.i)
    ensures r.Err? <==> value.Some? && !(value.value.JNull? || value.value.JInt? || value.value.JBool?)
    ensures value.None? || value == Some(JNull) ==> r == Ok(50)
    ensures value.Some? && value.value.JInt? && !(1 <= value.value.i <= 100) ==> r == Ok(50)
  {
    var n: Option<int> :=
      match value
      case None => Some(50)
      case Some(JNull) => None
      case Some(JInt(i)) => Some(i)
      case Some(JBool(b)) => Some(if b then 1 else 0)
      case Some(_) => None;
    if value.Some? && !(value.value.JNull? || value.value.JInt? || value.value.JBool?) then
      Err("'<' not supported for score")
    else if n.None? || n.value < 1 || n.value > 100 then Ok(50)
    else Ok(n.value)
  }

  /** What `iterate(parsed.get("suggestions", []))` yields, or the error it raises. */
  function RawSuggestions(value: Option<Json>): Result<seq<Json>> {
    match value
    case None => Ok([])
    case Some(JArray(items)) => Ok(items)
    case Some(JString(s)) => if s == [] then Ok([]) else Err("'str' object has no attribute 'get'")
    case Some(JObject(fs)) => if fs == [] then Ok([]) else Err("'str' object has no attribute 'get'")
    case Some(_) => Err("object is not iterable")
  }

  /**
   * Interpret a parsed answer, as the body of the `try` does. An object whose
   * `suggestions` can be iterated is accepted exactly when every entry is an
   * object and the score can be compared with numbers; `analysis` is kept
   * whatever its type.
   */
  function Interpret(parsed: Json): (r: Result<Analysis>)
    ensures !parsed.JObject? ==> r.Err?
    ensures parsed.JObject? ==>
      (r.Ok? <==>
        (&& RawSuggestions(Get(parsed.fields, "suggestions")).Ok?
         && SuggestionsOf(RawSuggestions(Get(parsed.fields, "suggestions")).value).Ok?
         && ScoreOf(Get(parsed.fields, "score")).Ok?))
    ensures r.Ok? ==> 1 <= r.value.score <= 100
    ensures r.Ok? ==> forall v :: Get(parsed.fields, "analysis") == Some(v) ==> r.value.analysis == v
    ensures r.Ok? && Get(parsed.fields, "analysis").None? ==> r.value.analysis == JString("Analysis not available")
    ensures r.Ok? ==> forall k :: 0 <= k < |r.value.suggestions| ==>
      r.value.suggestions[k].id == k && r.value.suggestions[k].selected
  {
    if !parsed.JObject? then Err("object has no attribute 'get'")
    else
      var raw := RawSuggestions(Get(parsed.fields, "suggestions"));
      var analysis := GetOr(parsed.fields, "analysis", JString("Analysis not available"));
      if raw.Err? then Err(raw.error)
      else
        var suggestions := SuggestionsOf(raw.value);
        if suggestions.Err? then Err(suggestions.error)
        else
          var score := ScoreOf(Get(parsed.fields, "score"));
          if score.Err? then Err(score.error)
          else Ok(Analysis(score.value, analysis, suggestions.value))
  }

  const ParseFailure: Analysis := Analysis(50, JString("Failed to parse response. Please try again."), [])

  /** `_parse_response`: the whole cleaned answer, then its brace span, then the fixed failure result. */
  function ParseResponse(response: String, parse: Parser): (r: Result<Analysis>)
    ensures r.Ok? ==> 1 <= r.value.score <= 100
  {
    var cleaned := StripFences(response);
    match parse(cleaned)
    case Some(j) => Interpret(j)
    case None =>
      match RegexBraceMatch(cleaned)
      case None => Ok(ParseFailure)
      case Some(span) =>
        match parse(span)
        case Some(j) => Interpret(j)
        case None => Ok(ParseFailure)
  }

  /** `_parse_response` with its suggestion loop. */
  method ParseResponseMethod(response: String, parse: Parser) returns (r: Result<Analysis>)
    ensures r == ParseResponse(response, parse)
  {
    var cleaned := StripFences(response);
    var parsed := parse(cleaned);
    if parsed.None? {
      var m := RegexBraceMatch(cleaned);
      if m.None? {
        return Ok(ParseFailure);
      }
      parsed := parse(m.value);
      if parsed.None? {
        return Ok(ParseFailure);
      }
    }
    var j := parsed.value;
    if !j.JObject? {
      return Err("object has no attribute 'get'");
    }
    var raw := RawSuggestions(Get(j.fields, "suggestions"));
    var analysis := GetOr(j.fields, "analysis", JString("Analysis not available"));
    if raw.Err? {
      return Err(raw.error);
    }
    var suggestions := BuildSuggestions(raw.value);
    if suggestions.Err? {
      return Err(suggestions.error);
    }
    var score := ScoreOf(Get(j.fields, "score"));
    if score.Err? {
      return Err(score.error);
    }
    r := Ok(Analysis(score.value, analysis, suggestions.value));
  }

  /** When neither the answer nor its brace span parses, the fixed failure result comes back. */
  lemma UnparseableGivesFailure(response: String, parse: Parser)
    requires parse(StripFences(response)).None?
    requires BraceSpan(StripFences(response)).None? || parse(BraceSpan(StripFences(response)).value).None?
    ensures ParseResponse(response, parse) == Ok(ParseFailure)
  {
    RegexMatchesBraceSpan(StripFences(response));
  }

  /** `analyze_and_score` after the client call: a client error is re-raised with a prefix. */
  /**
   * The type name `len()` reports for a JSON value without a length, or None
   * for a string, an array or an object, which have one.
   */
  function LenlessType(v: Json): (t: Option<String>)
    ensures t.None? <==> v.JString? || v.JArray? || v.JObject?
  {
    match v
    case JNull => Some("NoneType")
    case JBool(_) => Some("bool")
    case JInt(_) => Some("int")
    case _ => None
  }

  /**
   * `analyze_and_score` after the model call: the debug line takes
   * `len(result['analysis'])`, which raises for null, a boolean or an
   * integer, and every error is re-raised with a prefix.
   */
  method AnalyzeAndScore(reply: Result<String>, parse: Parser) returns (r: Result<Analysis>)
    ensures reply.Err? ==> r == Err("Error in resume analysis: " + reply.error)
    ensures reply.Ok? && ParseResponse(reply.value, parse).Err? ==>
      r == Err("Error in resume analysis: " + ParseResponse(reply.value, parse).error)
    ensures reply.Ok? && ParseResponse(reply.value, parse).Ok? ==>
      var a := ParseResponse(reply.value, parse).value;
      r == match LenlessType(a.analysis)
           case None => Ok(a)
           case Some(t) => Err("Error in resume analysis: object of type '" + t + "' has no len()")
    ensures r.Ok? ==> 1 <= r.value.score <= 100 && LenlessType(r.value.analysis).None?
  {
    if reply.Err? {
      return Err("Error in resume analysis: " + reply.error);
    }
    var parsed := ParseResponseMethod(reply.value, parse);
    if parsed.Err? {
      return Err("Error in resume analysis: " + parsed.error);
    }
    var lenless := LenlessType(parsed.value.analysis);
    if lenless.Some? {
      return Err("Error in resume analysis: object of type '" + lenless.value + "' has no len()");
    }
    r := parsed;
  }

  /** A parsed answer whose analysis is null makes the debug line raise. */
  lemma NullAnalysisRaises(reply: String, parse: Parser)
    requires ParseResponse(reply, parse).Ok? && ParseResponse(reply, parse).value.analysis == JNull
    ensures LenlessType(ParseResponse(reply, parse).value.analysis) == Some("NoneType")
  {
  }

  // ---------------------------------------------------------------------
  // score_only
  // ---------------------------------------------------------------------

  datatype ScoreOnlyResult = ScoreOnlyResult(score: int, analysis: String)

  /**
   * The number on a marker line: every occurrence of `marker` is removed and
   * the rest stripped, then read with `int()`, else as its first digit run,
   * else `default`. (Removing an empty marker leaves the line as it is.)
   */
  function MarkedNumber(line: String, marker: String, default: int): int {
    var numberText := Strip(if marker == [] then line else Replace(line, marker, ""));
    match ParseInt(numberText)
    case Some(v) => v
    case None =>
      match FirstDigitRun(numberText)
      case Some(d) => d
      case None => default
  }

  /** The value of a `SCORE:` line, 50 when it holds no number. */
  function ScoreLineValue(line: String): int {
    MarkedNumber(line, "SCORE:", 50)
  }

  lemma ReplaceAbsent(s: String, pat: String, repl: String)
    requires |pat| > 0 && Find(s, pat) == -1
    ensures Replace(s, pat, repl) == s
  {
  }

  lemma StripLeadingSpace(digits: String)
    requires |digits| > 0 && AllDigits(digits)
    ensures Strip(" " + digits) == digits
  {
    assert IsDigit(digits[0]) && IsDigit(digits[|digits| - 1]);
    StripSpacePrefix(digits);
    NoEdgeSpaceStrip(digits);
  }

  /** The line `SCORE: n` reads back as `n`. */
  lemma ScoreLineRoundTrip(n: nat)
    ensures ScoreLineValue("SCORE: " + NatToString(n)) == n
  {
    var digits := NatToString(n);
    var line := "SCORE: " + digits;
    var tail := " " + digits;
    assert line[..6] == "SCORE:";
    assert Find(line, "SCORE:") == 0;
    assert line[6..] == tail;
    assert 'S' !in tail by {
      forall k | 0 <= k < |tail| ensures tail[k] != 'S' {
        if k > 0 {
          assert tail[k] == digits[k - 1];
        }
      }
    }
    FindAbsentHead(tail, "SCORE:", 0);
    ReplaceAbsent(tail, "SCORE:", "");
    assert Replace(line, "SCORE:", "") == line[..0] + "" + Replace(line[6..], "SCORE:", "");
    assert Replace(line, "SCORE:", "") == tail;
    StripLeadingSpace(digits);
    ParseIntToString(n);
  }

  datatype Mode = NoMode | ScoreMode | AnalysisMode

  /** What `score_only`'s loop has gathered: the section in force, the last score, the analysis lines. */
  datatype ScoreScan = ScoreScan(mode: Mode, score: Option<int>, analysis: seq<String>)

  /** One line of the loop: the line is stripped, then matched against the two markers. */
  function ReadScoreLine(st: ScoreScan, x: String): ScoreScan {
    var l := Strip(x);
    if StartsWith(l, "SCORE:") then st.(mode := ScoreMode, score := Some(ScoreLineValue(l)))
    else if StartsWith(l, "ANALYSIS:") then st.(mode := AnalysisMode)
    else if l != [] && st.mode == AnalysisMode then st.(analysis := st.analysis + [l])
    else st
  }

  /** The loop over `lines`, from no section, no score and no analysis. */
  function ScanScore(lines: seq<String>): ScoreScan
    decreases |lines|
  {
    if |lines| == 0 then ScoreScan(NoMode, None, [])
    else ReadScoreLine(ScanScore(lines[..|lines| - 1]), lines[|lines| - 1])
  }

  /** Reading one more line `x` after `ls`. */
  lemma ScanAppend(ls: seq<String>, x: String)
    ensures ScanScore(ls + [x]) == ReadScoreLine(ScanScore(ls), x)
  {
    assert (ls + [x])[..|ls|] == ls;
  }

  /** A line `score_only` keeps as analysis: stripped, non-empty and no marker line. */
  predicate AnalysisText(a: String) {
    a != [] && !StartsWith(a, "SCORE:") && !StartsWith(a, "ANALYSIS:") && Strip(a) == a
  }

  lemma ReadKeepsAnalysisText(st: ScoreScan, x: String)
    requires forall a :: a in st.analysis ==> AnalysisText(a)
    ensures forall a :: a in ReadScoreLine(st, x).analysis ==> AnalysisText(a)
  {
    StripIdempotent(x);
  }

  /** Analysis lines are stripped, non-empty and never a marker line. */
  lemma {:induction false} AnalysisLinesAreText(lines: seq<String>)
    ensures forall a :: a in ScanScore(lines).analysis ==> AnalysisText(a)
    decreases |lines|
  {
    if |lines| > 0 {
      AnalysisLinesAreText(lines[..|lines| - 1]);
      ReadKeepsAnalysisText(ScanScore(lines[..|lines| - 1]), lines[|lines| - 1]);
    }
  }

  /** Without a `SCORE:` line the score stays unset, and `score_only` reports 50. */
  lemma {:induction false} NoScoreLineNoScore(lines: seq<String>)
    requires forall k :: 0 <= k < |lines| ==> !StartsWith(Strip(lines[k]), "SCORE:")
    ensures ScanScore(lines).score == None
    decreases |lines|
  {
    if |lines| > 0 {
      NoScoreLineNoScore(lines[..|lines| - 1]);
    }
  }

  /** A final `SCORE:` line decides the score, whatever came before. */
  lemma LastScoreLineWins(ls: seq<String>, x: String)
    requires StartsWith(Strip(x), "SCORE:")
    ensures ScanScore(ls + [x]).score == Some(ScoreLineValue(Strip(x)))
  {
    ScanAppend(ls, x);
  }

  function ClampScore(score: Option<int>): (r: int)
    ensures 1 <= r <= 100
    ensures score.Some? && 1 <= score.value <= 100 ==> r == score.value
  {
    if score.None? || score.value < 1 || score.value > 100 then 50 else score.value
  }

  /** The body of `score_only`'s loop for one line. */
  method ReadLine(x: String, mode: Mode, score: Option<int>, analysis: seq<String>)
    returns (mode': Mode, score': Option<int>, analysis': seq<String>)
    ensures ScoreScan(mode', score', analysis') == ReadScoreLine(ScoreScan(mode, score, analysis), x)
  {
    mode', score', analysis' := mode, score, analysis;
    var line := Strip(x);
    if StartsWith(line, "SCORE:") {
      score' := Some(ScoreLineValue(line));
      mode' := ScoreMode;
    } else if StartsWith(line, "ANALYSIS:") {
      mode' := AnalysisMode;
    } else if line != [] && mode == AnalysisMode {
      analysis' := analysis + [line];
    }
  }

  /** The line loop of `score_only`: the last score read and the analysis lines kept. */
  method ScanScoreLines(lines: seq<String>) returns (score: Option<int>, analysis: seq<String>)
    ensures score == ScanScore(lines).score && analysis == ScanScore(lines).analysis
  {
    score := None;
    analysis := [];
    var mode := NoMode;
    for i := 0 to |lines|
      invariant ScoreScan(mode, score, analysis) == ScanScore(lines[..i])
    {
      ScanAppend(lines[..i], lines[i]);
      TakeSnoc(lines, i);
      mode, score, analysis := ReadLine(lines[i], mode, score, analysis);
    }
    TakeAll(lines);
  }

  /** `score_only` after the client call. */
  method ScoreOnly(reply: Result<String>) returns (r: Result<ScoreOnlyResult>)
    ensures reply.Err? ==> r == Err("Error in resume scoring: " + reply.error)
    ensures reply.Ok? ==> (r.Ok?
      && r.value.score == ClampScore(ScanScore(Lines(Strip(reply.value))).score)
      && r.value.analysis == Join("\n", ScanScore(Lines(Strip(reply.value))).analysis))
    ensures r.Ok? ==> 1 <= r.value.score <= 100
  {
    if reply.Err? {
      return Err("Error in resume scoring: " + reply.error);
    }
    var score, analysis := ScanScoreLines(Lines(Strip(reply.value)));
    r := Ok(ScoreOnlyResult(ClampScore(score), Join("\n", analysis)));
  }

  lemma ScoreLineFacts(n: nat)
    ensures var line := "SCORE: " + NatToString(n);
      Strip(line) == line && StartsWith(line, "SCORE:") && ScoreLineValue(line) == n
  {
    var digits := NatToString(n);
    var line := "SCORE: " + digits;
    assert line[|line| - 1] == digits[|digits| - 1];
    assert IsDigit(digits[|digits| - 1]);
    NoEdgeSpaceStrip(line);
    assert line[..6] == "SCORE:";
    ScoreLineRoundTrip(n);
  }

  lemma ScoreOnlyFirstLine(n: nat)
    ensures ScanScore(["SCORE: " + NatToString(n)]) == ScoreScan(ScoreMode, Some(n), [])
  {
    var line := "SCORE: " + NatToString(n);
    ScoreLineFacts(n);
    ScanAppend([], line);
    assert [] + [line] == [line];
  }

  lemma ScoreOnlyBlankLine(n: nat)
    ensures ScanScore(["SCORE: " + NatToString(n)] + [""]) == ScoreScan(ScoreMode, Some(n), [])
  {
    ScoreOnlyFirstLine(n);
    FirstCharDiffers([], "SCORE:");
    FirstCharDiffers([], "ANALYSIS:");
    ScanAppend(["SCORE: " + NatToString(n)], "");
  }

  lemma AnalysisMarkerFacts()
    ensures Strip("ANALYSIS:") == "ANALYSIS:"
    ensures !StartsWith("ANALYSIS:", "SCORE:") && StartsWith("ANALYSIS:", "ANALYSIS:")
  {
    NoEdgeSpaceStrip("ANALYSIS:");
    FirstCharDiffers("ANALYSIS:", "SCORE:");
    StartsWithSelf("ANALYSIS:");
  }

  /** The header of a well-formed answer: a score line, a blank line and the analysis marker. */
  lemma ScoreOnlyHeader(n: nat)
    ensures ScanScore(["SCORE: " + NatToString(n)] + [""] + ["ANALYSIS:"]) == ScoreScan(AnalysisMode, Some(n), [])
  {
    ScoreOnlyBlankLine(n);
    AnalysisMarkerFacts();
    ScanAppend(["SCORE: " + NatToString(n)] + [""], "ANALYSIS:");
  }

  /** A well-formed answer yields its own score and its analysis line. */
  lemma ScoreOnlyWellFormed(n: nat, body: String)
    requires !Blank(body) && !StartsWith(Strip(body), "SCORE:") && !StartsWith(Strip(body), "ANALYSIS:")
    ensures ScanScore(["SCORE: " + NatToString(n)] + [""] + ["ANALYSIS:"] + [body])
      == ScoreScan(AnalysisMode, Some(n), [Strip(body)])
  {
    ScoreOnlyHeader(n);
    ScanAppend(["SCORE: " + NatToString(n)] + [""] + ["ANALYSIS:"], body);
  }
}
