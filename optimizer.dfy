/**
 * The length optimizer (agent 5): the line parser that reads the model's
 * `OPTIMIZED_RESUME:` / `OPTIMIZATION_SUMMARY:` / `CHANGES_MADE:` answer,
 * and the structure validation run over the optimized resume afterwards.
 */
module ResumeOptimizer {
  import opened Text
  import opened Wrappers
  import opened ResumeModifier
  import opened ResumeStructure

  datatype Part = NoPart | ResumePart | SummaryPart | ChangesPart

  /** The part a stripped line opens, tried in the parser's order. */
  function MarkerOf(l: String): Option<Part> {
    if StartsWith(l, "OPTIMIZED_RESUME:") then Some(ResumePart)
    else if StartsWith(l, "OPTIMIZATION_SUMMARY:") then Some(SummaryPart)
    else if StartsWith(l, "CHANGES_MADE:") then Some(ChangesPart)
    else None
  }

  /** What the parser has read so far: the part in force and the three collections. */
  datatype Scan = Scan(part: Part, resume: seq<String>, summary: String, changes: seq<String>)

  const Start: Scan := Scan(NoPart, [], "", [])

  /** The effect of one answer line on the parser. */
  function ReadOptimizedLine(st: Scan, line: String): Scan {
    var l := Strip(line);
    match MarkerOf(l)
    case Some(p) => st.(part := p)
    case None =>
      if st.part == ResumePart then st.(resume := st.resume + [line])
      else if st.part == SummaryPart && l != [] then st.(summary := st.summary + (l + " "))
      else if st.part == ChangesPart && StartsWith(l, "-") then st.(changes := st.changes + [Strip(l[1..])])
      else st
  }

  /** The parser after reading `lines` in order. */
  function ScanOptimized(lines: seq<String>): Scan {
    if lines == [] then Start
    else ReadOptimizedLine(ScanOptimized(lines[..|lines| - 1]), lines[|lines| - 1])
  }

  lemma ScanAppend(ls: seq<String>, x: String)
    ensures ScanOptimized(ls + [x]) == ReadOptimizedLine(ScanOptimized(ls), x)
  {
    assert (ls + [x])[..|ls|] == ls;
  }

  predicate NoMarkers(ls: seq<String>) {
    forall k :: 0 <= k < |ls| ==> MarkerOf(Strip(ls[k])).None?
  }

  /** The marker lines are never copied into the resume. */
  lemma {:induction false} MarkersNotCopied(lines: seq<String>)
    ensures NoMarkers(ScanOptimized(lines).resume)
  {
    if lines != [] {
      var init := lines[..|lines| - 1];
      MarkersNotCopied(init);
      var before := ScanOptimized(init).resume;
      var after := ScanOptimized(lines).resume;
      assert after == before || (after == before + [lines[|lines| - 1]] && MarkerOf(Strip(lines[|lines| - 1])).None?);
      if after != before {
        forall k | 0 <= k < |after| ensures MarkerOf(Strip(after[k])).None? {
          if k < |before| {
            assert after[k] == before[k];
          }
        }
      }
    }
  }

  lemma StartIgnores(x: String)
    requires MarkerOf(Strip(x)).None?
    ensures ReadOptimizedLine(Start, x) == Start
  {
  }

  lemma ResumeTakes(st: Scan, x: String)
    requires st.part == ResumePart && MarkerOf(Strip(x)).None?
    ensures ReadOptimizedLine(st, x) == st.(resume := st.resume + [x])
  {
  }

  lemma ResumeGrows(ls: seq<String>, x: String)
    requires ScanOptimized(ls).part == ResumePart && MarkerOf(Strip(x)).None?
    ensures ScanOptimized(ls + [x]).part == ResumePart
    ensures ScanOptimized(ls + [x]).resume == ScanOptimized(ls).resume + [x]
  {
    ScanAppend(ls, x);
    ResumeTakes(ScanOptimized(ls), x);
  }

  lemma ResumeOpens(ls: seq<String>, m: String)
    requires MarkerOf(Strip(m)) == Some(ResumePart)
    ensures ScanOptimized(ls + [m]).part == ResumePart
    ensures ScanOptimized(ls + [m]).resume == ScanOptimized(ls).resume
  {
    ScanAppend(ls, m);
    MarkerSwitches(ScanOptimized(ls), m, ResumePart);
  }

  lemma MarkerSwitches(st: Scan, m: String, p: Part)
    requires MarkerOf(Strip(m)) == Some(p)
    ensures ReadOptimizedLine(st, m) == st.(part := p)
  {
  }

  lemma NoMarkersInit(ls: seq<String>)
    requires NoMarkers(ls) && ls != []
    ensures NoMarkers(ls[..|ls| - 1]) && MarkerOf(Strip(ls[|ls| - 1])).None?
  {
    var init := ls[..|ls| - 1];
    forall k | 0 <= k < |init| ensures MarkerOf(Strip(init[k])).None? {
      assert init[k] == ls[k];
    }
  }

  /** Lines read before any marker line are discarded: the parser is still where it started. */
  lemma {:induction false} BeforeMarkersDiscarded(ls: seq<String>)
    requires NoMarkers(ls)
    ensures ScanOptimized(ls) == Start
  {
    if ls != [] {
      var init := ls[..|ls| - 1];
      var x := ls[|ls| - 1];
      NoMarkersInit(ls);
      BeforeMarkersDiscarded(init);
      SnocSplit([], ls);
      ScanAppend(init, x);
      StartIgnores(x);
    }
  }

  /**
   * The lines after an `OPTIMIZED_RESUME:` marker line, up to the next marker
   * line, are added to the resume verbatim (unstripped) and in order.
   */
  lemma {:induction false} ResumeKeptVerbatim(pre: seq<String>, m: String, body: seq<String>)
    requires MarkerOf(Strip(m)) == Some(ResumePart) && NoMarkers(body)
    ensures ScanOptimized(pre + [m] + body).part == ResumePart
    ensures ScanOptimized(pre + [m] + body).resume == ScanOptimized(pre).resume + body
  {
    if body == [] {
      SnocSplit(pre + [m], body);
      ResumeOpens(pre, m);
    } else {
      var init := body[..|body| - 1];
      var x := body[|body| - 1];
      NoMarkersInit(body);
      ResumeKeptVerbatim(pre, m, init);
      SnocSplit(pre + [m], body);
      ResumeGrows(pre + [m] + init, x);
      SnocSplit(ScanOptimized(pre).resume, body);
    }
  }

  lemma Opens(ls: seq<String>, m: String, p: Part)
    requires MarkerOf(Strip(m)) == Some(p)
    ensures ScanOptimized(ls + [m]) == ScanOptimized(ls).(part := p)
  {
    ScanAppend(ls, m);
    MarkerSwitches(ScanOptimized(ls), m, p);
  }

  /** The change entry a line gives: its stripped text after a leading dash, if it has one. */
  function DashItem(x: String): seq<String> {
    var l := Strip(x);
    if StartsWith(l, "-") then [Strip(l[1..])] else []
  }

  /** The change entries of `body`, in order. */
  function DashItems(body: seq<String>): seq<String> {
    if body == [] then [] else DashItems(body[..|body| - 1]) + DashItem(body[|body| - 1])
  }

  lemma ChangesTakes(st: Scan, x: String)
    requires st.part == ChangesPart && MarkerOf(Strip(x)).None?
    ensures ReadOptimizedLine(st, x) == st.(changes := st.changes + DashItem(x))
  {
  }

  lemma ChangesGrows(ls: seq<String>, x: String)
    requires ScanOptimized(ls).part == ChangesPart && MarkerOf(Strip(x)).None?
    ensures ScanOptimized(ls + [x]) == ScanOptimized(ls).(changes := ScanOptimized(ls).changes + DashItem(x))
  {
    ScanAppend(ls, x);
    ChangesTakes(ScanOptimized(ls), x);
  }

  /** Once the changes part is open, each non-marker dash line adds one entry: its text after the dash, stripped. */
  lemma {:induction false} ChangesRun(ls: seq<String>, body: seq<String>)
    requires ScanOptimized(ls).part == ChangesPart && NoMarkers(body)
    ensures ScanOptimized(ls + body) == ScanOptimized(ls).(changes := ScanOptimized(ls).changes + DashItems(body))
  {
    if body == [] {
      assert ls + body == ls;
    } else {
      var init := body[..|body| - 1];
      var x := body[|body| - 1];
      NoMarkersInit(body);
      ChangesRun(ls, init);
      SnocSplit(ls, body);
      ChangesGrows(ls + init, x);
      AppendAssoc(ScanOptimized(ls).changes, DashItems(init), DashItem(x));
    }
  }

  /**
   * After a `CHANGES_MADE:` marker line, the changes are the dash lines up to
   * the next marker line, with the dash removed and the rest stripped; the
   * resume and the summary are untouched.
   */
  lemma ChangesCollected(pre: seq<String>, m: String, body: seq<String>)
    requires MarkerOf(Strip(m)) == Some(ChangesPart) && NoMarkers(body)
    ensures ScanOptimized(pre + [m] + body)
      == Scan(ChangesPart, ScanOptimized(pre).resume, ScanOptimized(pre).summary, ScanOptimized(pre).changes + DashItems(body))
  {
    Opens(pre, m, ChangesPart);
    ChangesRun(pre + [m], body);
  }

  /** The result of `_parse_response` (word counts are `len(s.split())`). */
  datatype Optimization = Optimization(
    optimizedResume: String, wordCountBefore: nat, wordCountAfter: nat, wordsRemoved: int,
    summary: String, changes: seq<String>)

  const DefaultSummary: String := "Resume optimized for length."
  const DefaultChange: String := "Resume condensed while maintaining key information"

  /** The word counts describe the resume the record carries. */
  predicate CountsAgree(o: Optimization) {
    o.wordCountAfter == WordCount(o.optimizedResume) && o.wordsRemoved == o.wordCountBefore - o.wordCountAfter
  }

  /** `optimization_summary.strip() if optimization_summary else "Resume optimized for length."` */
  function SummaryOrDefault(summary: String): String {
    if summary != [] then Strip(summary) else DefaultSummary
  }

  /** `changes_made if changes_made else [...]` */
  function ChangesOrDefault(changes: seq<String>): (r: seq<String>)
    ensures r != [] && (changes != [] ==> r == changes)
  {
    if changes != [] then changes else [DefaultChange]
  }

  /**
   * The record `_parse_response` builds from the parser's final state, with
   * fixed defaults for an empty summary or change list.
   */
  function Finish(st: Scan, originalResume: String): (o: Optimization)
    ensures CountsAgree(o)
    ensures o.wordCountBefore == WordCount(originalResume)
  {
    var text := JoinedResume(st.resume);
    var before := WordCount(originalResume);
    var after := WordCount(text);
    Optimization(text, before, after, before - after, SummaryOrDefault(st.summary), ChangesOrDefault(st.changes))
  }

  /** One iteration of the parser loop. */
  method ReadLine(line: String, st: Scan) returns (st': Scan)
    ensures st' == ReadOptimizedLine(st, line)
  {
    var l := Strip(line);
    st' := st;
    if StartsWith(l, "OPTIMIZED_RESUME:") {
      st' := st'.(part := ResumePart);
    } else if StartsWith(l, "OPTIMIZATION_SUMMARY:") {
      st' := st'.(part := SummaryPart);
    } else if StartsWith(l, "CHANGES_MADE:") {
      st' := st'.(part := ChangesPart);
    } else if st.part == ResumePart {
      if !StartsWithAny(l, ["OPTIMIZATION_SUMMARY:", "CHANGES_MADE:"]) {
        st' := st'.(resume := st.resume + [line]);
      }
    } else if st.part == SummaryPart {
      if !StartsWith(l, "CHANGES_MADE:") && l != [] {
        st' := st'.(summary := st.summary + (l + " "));
      }
    } else if st.part == ChangesPart {
      if StartsWith(l, "-") {
        st' := st'.(changes := st.changes + [Strip(l[1..])]);
      }
    }
  }

  /** `_parse_response` of the optimizer. */
  method ParseOptimization(response: String, originalResume: String) returns (o: Optimization)
    ensures o == Finish(ScanOptimized(Lines(Strip(response))), originalResume)
  {
    var lines := Lines(Strip(response));
    var st := Start;
    for i := 0 to |lines|
      invariant st == ScanOptimized(lines[..i])
    {
      st := ReadLine(lines[i], st);
      TakeSnoc(lines, i);
      ScanAppend(lines[..i], lines[i]);
    }
    TakeAll(lines);
    o := Finish(st, originalResume);
  }

  /** `[f"[Auto-fix] {fix}" for fix in fixes]`. */
  function AutoFixes(fixes: seq<String>): (r: seq<String>)
    ensures |r| == |fixes|
    ensures forall k :: 0 <= k < |r| ==> r[k] == "[Auto-fix] " + fixes[k]
  {
    seq(|fixes|, k requires 0 <= k < |fixes| => "[Auto-fix] " + fixes[k])
  }

  /**
   * The update of `optimize_resume` after structure validation: the fixed
   * resume replaces the optimized one, each applied fix is appended to the
   * changes as an auto-fix entry, and the after-count is taken again.
   */
  method AfterValidation(o: Optimization, v: FixReport) returns (r: Optimization)
    ensures CountsAgree(r)
    ensures r.optimizedResume == v.fixedResume
    ensures r.changes == o.changes + AutoFixes(v.fixesApplied)
    ensures r.wordCountBefore == o.wordCountBefore && r.summary == o.summary
  {
    r := o;
    if v.fixesApplied != [] {
      r := r.(changes := r.changes + AutoFixes(v.fixesApplied));
    }
    r := r.(optimizedResume := v.fixedResume);
    r := r.(wordCountAfter := WordCount(v.fixedResume));
    r := r.(wordsRemoved := r.wordCountBefore - r.wordCountAfter);
  }

  /** `r` is what `optimize_resume` returns for the model answer `answer`. */
  ghost predicate Optimizes(r: Optimization, answer: String, resumeContent: String) {
    var parsed := Finish(ScanOptimized(Lines(Strip(answer))), resumeContent);
    && CountsAgree(r)
    && r.wordCountBefore == WordCount(resumeContent)
    && r.summary == parsed.summary
    && exists v :: FixReports(v, parsed.optimizedResume, Some(resumeContent))
         && r.optimizedResume == v.fixedResume
         && r.changes == parsed.changes + AutoFixes(v.fixesApplied)
  }

  /**
   * `optimize_resume` around one model call whose reply is `reply`: the
   * optimized text is validated against the original resume; a client error
   * becomes "Optimization failed: ...".
   */
  method OptimizeResume(reply: Result<String>, resumeContent: String) returns (r: Result<Optimization>)
    ensures reply.Err? ==> r == Err("Optimization failed: " + reply.error)
    ensures reply.Ok? ==> r.Ok? && CountsAgree(r.value) && Optimizes(r.value, reply.value, resumeContent)
  {
    if reply.Err? {
      return Err("Optimization failed: " + reply.error);
    }
    var parsed := ParseOptimization(reply.value, resumeContent);
    var v := ValidateAndFix(parsed.optimizedResume, Some(resumeContent));
    var updated := AfterValidation(parsed, v);
    r := Ok(updated);
  }
}
