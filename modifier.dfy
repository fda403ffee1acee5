/**
 * The resume modifier (agent 2): only the suggestions the user kept are sent
 * to the model, nothing is sent when none is kept, and the answer loses a
 * surrounding Markdown code fence.
 */
module ResumeModifier {
  import opened Text
  import opened Wrappers
  import opened Json
  import opened ResumeScorer

  /** The suggestions whose `selected` flag is set, in their original order. */
  function Selected(suggestions: seq<Suggestion>): (r: seq<Suggestion>)
    ensures |r| <= |suggestions|
    ensures r == [] <==> forall k :: 0 <= k < |suggestions| ==> !suggestions[k].selected
    decreases |suggestions|
  {
    if |suggestions| == 0 then []
    else
      var last := suggestions[|suggestions| - 1];
      Selected(suggestions[..|suggestions| - 1]) + (if last.selected then [last] else [])
  }

  /**
   * A member as an f-string field renders it: a string as itself, any other
   * value as `show` renders it (`show` stands for Python's `str`, which is
   * not part of this model).
   */
  function Field(v: Json, show: Json -> String): (r: String)
    ensures v.JString? ==> r == v.s
    ensures !v.JString? ==> r == show(v)
  {
    match v
    case JString(t) => t
    case _ => show(v)
  }

  /** Appending one suggestion appends it to the selection exactly when it is selected. */
  lemma SelectedSnoc(s: seq<Suggestion>, x: Suggestion)
    ensures Selected(s + [x]) == Selected(s) + (if x.selected then [x] else [])
  {
    assert (s + [x])[..|s|] == s;
  }

  /**
   * `Selected` is the filter: it maps a concatenation to the concatenation of
   * the parts, so each kept suggestion appears once, in its original place
   * relative to the other kept ones, and every one that is not kept is gone.
   */
  lemma {:induction false} SelectedConcat(a: seq<Suggestion>, b: seq<Suggestion>)
    ensures Selected(a + b) == Selected(a) + Selected(b)
    decreases |b|
  {
    if |b| == 0 {
      assert a + b == a;
    } else {
      var init, last := b[..|b| - 1], b[|b| - 1];
      assert b == init + [last];
      assert a + b == (a + init) + [last];
      SelectedSnoc(a + init, last);
      SelectedSnoc(init, last);
      SelectedConcat(a, init);
    }
  }

  /** On one suggestion the filter keeps it exactly when it is selected. */
  lemma SelectedSingle(s: Suggestion)
    ensures Selected([s]) == (if s.selected then [s] else [])
  {
    assert [s][..0] == [];
  }

  /** The filter keeps as many copies of each suggestion as the input holds when it is selected, and none otherwise. */
  lemma {:induction false} SelectedMultiset(suggestions: seq<Suggestion>, s: Suggestion)
    ensures multiset(Selected(suggestions))[s] == if s.selected then multiset(suggestions)[s] else 0
    decreases |suggestions|
  {
    if |suggestions| > 0 {
      var init := suggestions[..|suggestions| - 1];
      assert suggestions == init + [suggestions[|suggestions| - 1]];
      SelectedMultiset(init, s);
    }
  }

  /** The kept suggestions are exactly the selected members of the input. */
  lemma SelectedMembers(suggestions: seq<Suggestion>)
    ensures forall s :: s in Selected(suggestions) <==> s in suggestions && s.selected
  {
    forall s: Suggestion {
      SelectedMultiset(suggestions, s);
    }
  }

  /** One prompt line per suggestion: `- [category] text`. */
  function SuggestionLine(s: Suggestion, show: Json -> String): String {
    "- [" + Field(s.category, show) + "] " + Field(s.text, show)
  }

  /** The prompt lines of the kept suggestions, one per line in their order. */
  function SuggestionsText(selected: seq<Suggestion>, show: Json -> String): (r: String)
    ensures |selected| == 1 ==> r == SuggestionLine(selected[0], show)
  {
    Join("\n", seq(|selected|, k requires 0 <= k < |selected| => SuggestionLine(selected[k], show)))
  }

  /** `_clean_resume`: drop an opening and a closing fence line when the text starts with a fence, then strip. */
  function CleanResume(resume: String): (r: String)
    ensures !StartsWith(resume, "```") ==> r == Strip(resume)
  {
    if StartsWith(resume, "```") then
      var lines := Lines(resume);
      var body := if StartsWith(lines[0], "```") then lines[1..] else lines;
      var inner := if |body| > 0 && StartsWith(body[|body| - 1], "```") then body[..|body| - 1] else body;
      Strip(Join("\n", inner))
    else Strip(resume)
  }

  lemma FencedLines(tag: String, body: String)
    requires '\n' !in tag
    ensures Lines("```" + tag + "\n" + body + "\n```") == ["```" + tag] + Split(body, '\n') + ["```"]
  {
    var s := "```" + tag + "\n" + body + "\n```";
    assert s == ("```" + tag) + ['\n'] + (body + ['\n'] + "```");
    assert '\n' !in "```" + tag;
    SplitAfterFirst("```" + tag, body + ['\n'] + "```", '\n');
    assert '\n' !in "```";
    SplitBeforeLast(body, "```", '\n');
  }

  /** A fenced answer comes back as its stripped body. */
  lemma FencedResumeCleaned(tag: String, body: String)
    requires '\n' !in tag
    ensures CleanResume("```" + tag + "\n" + body + "\n```") == Strip(body)
  {
    var s := "```" + tag + "\n" + body + "\n```";
    assert s[..3] == "```";
    FencedLines(tag, body);
    assert ("```" + tag)[..3] == "```";
    CleanBetweenFences(s, "```" + tag, Split(body, '\n'));
    JoinSplit(body, '\n');
  }

  /** Text whose lines are an opening fence, `inner` and a closing fence cleans to the joined `inner`. */
  lemma CleanBetweenFences(resume: String, first: String, inner: seq<String>)
    requires StartsWith(resume, "```") && StartsWith(first, "```")
    requires Lines(resume) == [first] + inner + ["```"]
    ensures CleanResume(resume) == Strip(Join("\n", inner))
  {
    var lines := [first] + inner + ["```"];
    assert lines[1..] == inner + ["```"];
    assert (inner + ["```"])[..|inner|] == inner;
    StartsWithSelf("```");
  }

  /**
   * Resume lines collected by a line parser, joined with newlines, stripped
   * and freed of a surrounding code fence (the optimizer and the freeform
   * editor finish their resume text this way).
   */
  function JoinedResume(lines: seq<String>): String {
    CleanResume(Strip(Join("\n", lines)))
  }

  /** Without a leading fence the joined resume is the stripped join itself. */
  lemma UnfencedResumeKept(lines: seq<String>)
    ensures !StartsWith(Strip(Join("\n", lines)), "```") ==> JoinedResume(lines) == Strip(Join("\n", lines))
  {
    StripIdempotent(Join("\n", lines));
  }

  /** What `modify_resume` did: whether the model was asked, with which suggestion lines, and the answer. */
  datatype Modification = Modification(called: bool, suggestionsText: String, result: Result<String>)

  /** `modify_resume` around one model call whose reply is `reply`. */
  function ModifyResume(originalResume: String, suggestions: seq<Suggestion>, reply: Result<String>, show: Json -> String): (m: Modification)
    ensures Selected(suggestions) == [] ==> !m.called && m.result == Ok(originalResume)
    ensures Selected(suggestions) != [] ==> m.called && m.suggestionsText == SuggestionsText(Selected(suggestions), show)
    ensures m.called && reply.Err? ==> m.result == Err("Error modifying resume: " + reply.error)
    ensures m.called && reply.Ok? ==> m.result == Ok(CleanResume(reply.value))
  {
    var selected := Selected(suggestions);
    if selected == [] then Modification(false, "", Ok(originalResume))
    else
      var text := SuggestionsText(selected, show);
      match reply
      case Err(e) => Modification(true, text, Err("Error modifying resume: " + e))
      case Ok(answer) => Modification(true, text, Ok(CleanResume(answer)))
  }
}
