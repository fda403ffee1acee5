/**
 * The freeform editor (agent 6): the line parser that reads the model's
 * `MODIFIED_RESUME:` / `CHANGES_SUMMARY:` answer into the edited resume and
 * a one-line summary of the changes.
 */
module FreeformEditor {
  import opened Text
  import opened Wrappers
  import opened ResumeModifier

  datatype Part = NoPart | ResumePart | SummaryPart

  /** The part a stripped line opens, tried in the parser's order. */
  function MarkerOf(l: String): Option<Part> {
    if StartsWith(l, "MODIFIED_RESUME:") then Some(ResumePart)
    else if StartsWith(l, "CHANGES_SUMMARY:") then Some(SummaryPart)
    else None
  }

  /** What the parser has read so far: the part in force, the resume lines and the summary accumulator. */
  datatype Scan = Scan(part: Part, resume: seq<String>, summary: String)

  const Start: Scan := Scan(NoPart, [], "")

  /** The effect of one answer line on the parser. */
  function ReadFreeformLine(st: Scan, line: String): Scan {
    var l := Strip(line);
    match MarkerOf(l)
    case Some(p) => st.(part := p)
    case None =>
      if st.part == ResumePart then st.(resume := st.resume + [line])
      else if st.part == SummaryPart && l != [] then st.(summary := st.summary + (l + " "))
      else st
  }

  /** The parser after reading `lines` in order. */
  function ScanFreeform(lines: seq<String>): Scan {
    if lines == [] then Start
    else ReadFreeformLine(ScanFreeform(lines[..|lines| - 1]), lines[|lines| - 1])
  }

  lemma ScanAppend(ls: seq<String>, x: String)
    ensures ScanFreeform(ls + [x]) == ReadFreeformLine(ScanFreeform(ls), x)
  {
    assert (ls + [x])[..|ls|] == ls;
  }

  predicate NoMarkers(ls: seq<String>) {
    forall k :: 0 <= k < |ls| ==> MarkerOf(Strip(ls[k])).None?
  }

  lemma NoMarkersInit(ls: seq<String>)
    requires NoMarkers(ls) && ls != []
    ensures NoMarkers(ls[..|ls| - 1]) && MarkerOf(Strip(ls[|ls| - 1])).None?
  {
    var init := ls[..|ls| - 1];
    forall k | 0 <= k < |init| ensures MarkerOf(Strip(init[k])).None? {
      assert init[k] == ls[k];
    }
  }

  /** The marker lines are never copied into the resume. */
  lemma {:induction false} MarkersNotCopied(lines: seq<String>)
    ensures NoMarkers(ScanFreeform(lines).resume)
  {
    if lines != [] {
      var init := lines[..|lines| - 1];
      MarkersNotCopied(init);
      var before := ScanFreeform(init).resume;
      var after := ScanFreeform(lines).resume;
      assert after == before || (after == before + [lines[|lines| - 1]] && MarkerOf(Strip(lines[|lines| - 1])).None?);
      if after != before {
        forall k | 0 <= k < |after| ensures MarkerOf(Strip(after[k])).None? {
          if k < |before| {
            assert after[k] == before[k];
          }
        }
      }
    }
  }

  lemma StartIgnores(x: String)
    requires MarkerOf(Strip(x)).None?
    ensures ReadFreeformLine(Start, x) == Start
  {
  }

  lemma MarkerSwitches(st: Scan, m: String, p: Part)
    requires MarkerOf(Strip(m)) == Some(p)
    ensures ReadFreeformLine(st, m) == st.(part := p)
  {
  }

  /** Lines read before any marker line are discarded: the parser is still where it started. */
  lemma {:induction false} BeforeMarkersDiscarded(ls: seq<String>)
    requires NoMarkers(ls)
    ensures ScanFreeform(ls) == Start
  {
    if ls != [] {
      var init := ls[..|ls| - 1];
      var x := ls[|ls| - 1];
      NoMarkersInit(ls);
      BeforeMarkersDiscarded(init);
      SnocSplit([], ls);
      ScanAppend(init, x);
      StartIgnores(x);
    }
  }

  lemma ResumeTakes(st: Scan, x: String)
    requires st.part == ResumePart && MarkerOf(Strip(x)).None?
    ensures ReadFreeformLine(st, x) == st.(resume := st.resume + [x])
  {
  }

  lemma ResumeGrows(ls: seq<String>, x: String)
    requires ScanFreeform(ls).part == ResumePart && MarkerOf(Strip(x)).None?
    ensures ScanFreeform(ls + [x]) == ScanFreeform(ls).(resume := ScanFreeform(ls).resume + [x])
  {
    ScanAppend(ls, x);
    ResumeTakes(ScanFreeform(ls), x);
  }

  lemma Opens(ls: seq<String>, m: String, p: Part)
    requires MarkerOf(Strip(m)) == Some(p)
    ensures ScanFreeform(ls + [m]) == ScanFreeform(ls).(part := p)
  {
    ScanAppend(ls, m);
    MarkerSwitches(ScanFreeform(ls), m, p);
  }

  /** Once the resume part is open, non-marker lines are added to the resume verbatim and in order. */
  lemma {:induction false} ResumeRun(ls: seq<String>, body: seq<String>)
    requires ScanFreeform(ls).part == ResumePart && NoMarkers(body)
    ensures ScanFreeform(ls + body) == ScanFreeform(ls).(resume := ScanFreeform(ls).resume + body)
  {
    if body == [] {
      assert ls + body == ls;
    } else {
      var init := body[..|body| - 1];
      var x := body[|body| - 1];
      NoMarkersInit(body);
      ResumeRun(ls, init);
      SnocSplit(ls, body);
      ResumeGrows(ls + init, x);
      SnocSplit(ScanFreeform(ls).resume, body);
    }
  }

  /**
   * The lines after a `MODIFIED_RESUME:` marker line, up to the next marker
   * line, are added to the resume verbatim (unstripped) and in order; the
   * summary is untouched.
   */
  lemma ResumeKeptVerbatim(pre: seq<String>, m: String, body: seq<String>)
    requires MarkerOf(Strip(m)) == Some(ResumePart) && NoMarkers(body)
    ensures ScanFreeform(pre + [m] + body) == Scan(ResumePart, ScanFreeform(pre).resume + body, ScanFreeform(pre).summary)
  {
    Opens(pre, m, ResumePart);
    ResumeRun(pre + [m], body);
  }

  /** The stripped non-blank lines of `body`, in order. */
  function SummaryLines(body: seq<String>): seq<String> {
    if body == [] then []
    else
      var l := Strip(body[|body| - 1]);
      SummaryLines(body[..|body| - 1]) + (if l != [] then [l] else [])
  }

  /** Every summary line is non-empty and has no surrounding whitespace. */
  lemma {:induction false} SummaryLinesTrimmed(body: seq<String>)
    ensures forall k :: 0 <= k < |SummaryLines(body)| ==> Trimmed(SummaryLines(body)[k])
  {
    if body != [] {
      SummaryLinesTrimmed(body[..|body| - 1]);
    }
  }

  predicate Trimmed(w: String) {
    w != [] && !IsSpace(w[0]) && !IsSpace(w[|w| - 1])
  }

  /** The summary accumulator: each word group followed by one space. */
  function Spaced(ws: seq<String>): String {
    if ws == [] then [] else Spaced(ws[..|ws| - 1]) + (ws[|ws| - 1] + " ")
  }

  lemma SummaryTakes(st: Scan, x: String)
    requires st.part == SummaryPart && MarkerOf(Strip(x)).None?
    ensures ReadFreeformLine(st, x) == st.(summary := st.summary + Piece(x))
  {
  }

  lemma SummaryGrows(ls: seq<String>, x: String)
    requires ScanFreeform(ls).part == SummaryPart && MarkerOf(Strip(x)).None?
    ensures ScanFreeform(ls + [x]) == ScanFreeform(ls).(summary := ScanFreeform(ls).summary + Piece(x))
  {
    ScanAppend(ls, x);
    SummaryTakes(ScanFreeform(ls), x);
  }

  function Piece(x: String): String {
    var l := Strip(x);
    if l != [] then l + " " else []
  }

  lemma SpacedSnoc(body: seq<String>)
    requires body != []
    ensures Spaced(SummaryLines(body)) == Spaced(SummaryLines(body[..|body| - 1])) + Piece(body[|body| - 1])
  {
    var init := SummaryLines(body[..|body| - 1]);
    var l := Strip(body[|body| - 1]);
    if l != [] {
      assert (init + [l])[..|init|] == init;
    } else {
      assert SummaryLines(body) == init;
    }
  }

  /** Once the summary part is open, each non-marker line adds its stripped text and a space when it is not blank. */
  lemma {:induction false} SummaryRun(ls: seq<String>, body: seq<String>)
    requires ScanFreeform(ls).part == SummaryPart && NoMarkers(body)
    ensures ScanFreeform(ls + body) == ScanFreeform(ls).(summary := ScanFreeform(ls).summary + Spaced(SummaryLines(body)))
  {
    if body == [] {
      assert ls + body == ls;
    } else {
      var init := body[..|body| - 1];
      var x := body[|body| - 1];
      NoMarkersInit(body);
      SummaryRun(ls, init);
      SnocSplit(ls, body);
      SummaryGrows(ls + init, x);
      SpacedSnoc(body);
      AppendAssoc(ScanFreeform(ls).summary, Spaced(SummaryLines(init)), Piece(x));
    }
  }

  /**
   * After a `CHANGES_SUMMARY:` marker line, each non-blank line up to the next
   * marker line adds its stripped text and one space to the summary; the
   * resume is untouched.
   */
  lemma SummaryCollected(pre: seq<String>, m: String, body: seq<String>)
    requires MarkerOf(Strip(m)) == Some(SummaryPart) && NoMarkers(body)
    ensures ScanFreeform(pre + [m] + body)
      == Scan(SummaryPart, ScanFreeform(pre).resume, ScanFreeform(pre).summary + Spaced(SummaryLines(body)))
  {
    Opens(pre, m, SummaryPart);
    SummaryRun(pre + [m], body);
  }

  /** Word groups without surrounding whitespace, each followed by a space, strip to their space-separated join. */
  lemma {:induction false} SpacedJoin(ws: seq<String>)
    requires forall k :: 0 <= k < |ws| ==> Trimmed(ws[k])
    ensures ws == [] <==> Spaced(ws) == []
    ensures ws != [] ==> Spaced(ws) == Join(" ", ws) + " "
  {
    if ws != [] {
      var init := ws[..|ws| - 1];
      var x := ws[|ws| - 1];
      assert ws == init + [x];
      if init != [] {
        SpacedJoin(init);
        JoinAppend(" ", init, x);
      }
    }
  }

  lemma SpacedStrip(ws: seq<String>)
    requires ws != [] && forall k :: 0 <= k < |ws| ==> Trimmed(ws[k])
    ensures Strip(Spaced(ws)) == Join(" ", ws)
  {
    SpacedJoin(ws);
    JoinEdges(" ", ws);
    StripTrailingSpace(Join(" ", ws));
  }

  /** The result of `_parse_response`. */
  datatype Edit = Edit(modifiedResume: String, changesSummary: String)

  const DefaultSummary: String := "Changes applied as requested."

  /** `changes_summary.strip() if changes_summary else "Changes applied as requested."` */
  function SummaryOrDefault(summary: String): String {
    if summary != [] then Strip(summary) else DefaultSummary
  }

  /** The record `_parse_response` builds from the parser's final state. */
  function Finish(st: Scan): (e: Edit)
    ensures st.summary == [] ==> e.changesSummary == DefaultSummary
  {
    Edit(JoinedResume(st.resume), SummaryOrDefault(st.summary))
  }

  /**
   * A well-formed answer — anything, a `MODIFIED_RESUME:` line, the resume
   * lines, a `CHANGES_SUMMARY:` line, the summary lines — gives the resume
   * lines joined, stripped and unfenced, and the summary as the stripped
   * non-blank summary lines joined by single spaces (or the default when
   * there are none).
   */
  lemma {:induction false} WellFormedAnswer(pre: seq<String>, m1: String, resume: seq<String>, m2: String, summary: seq<String>)
    requires NoMarkers(pre) && NoMarkers(resume) && NoMarkers(summary)
    requires MarkerOf(Strip(m1)) == Some(ResumePart) && MarkerOf(Strip(m2)) == Some(SummaryPart)
    ensures var e := Finish(ScanFreeform(pre + [m1] + resume + [m2] + summary));
      && e.modifiedResume == JoinedResume(resume)
      && e.changesSummary == (if SummaryLines(summary) == [] then DefaultSummary else Join(" ", SummaryLines(summary)))
  {
    AnswerScan(pre, m1, resume, m2, summary);
    SummaryLinesTrimmed(summary);
    SummaryText(SummaryLines(summary));
  }

  lemma AnswerScan(pre: seq<String>, m1: String, resume: seq<String>, m2: String, summary: seq<String>)
    requires NoMarkers(pre) && NoMarkers(resume) && NoMarkers(summary)
    requires MarkerOf(Strip(m1)) == Some(ResumePart) && MarkerOf(Strip(m2)) == Some(SummaryPart)
    ensures ScanFreeform(pre + [m1] + resume + [m2] + summary) == Scan(SummaryPart, resume, Spaced(SummaryLines(summary)))
  {
    ResumePhase(pre, m1, resume);
    var a := pre + [m1] + resume;
    SummaryCollected(a, m2, summary);
    EmptyPrefix(Spaced(SummaryLines(summary)));
  }

  lemma ResumePhase(pre: seq<String>, m1: String, resume: seq<String>)
    requires NoMarkers(pre) && NoMarkers(resume) && MarkerOf(Strip(m1)) == Some(ResumePart)
    ensures ScanFreeform(pre + [m1] + resume) == Scan(ResumePart, resume, [])
  {
    BeforeMarkersDiscarded(pre);
    ResumeKeptVerbatim(pre, m1, resume);
    EmptyPrefix(resume);
  }

  lemma SummaryText(ws: seq<String>)
    requires forall k :: 0 <= k < |ws| ==> Trimmed(ws[k])
    ensures SummaryOrDefault(Spaced(ws)) == if ws == [] then DefaultSummary else Join(" ", ws)
  {
    SpacedJoin(ws);
    if ws != [] {
      SpacedStrip(ws);
    }
  }

  /** One iteration of the parser loop. */
  method ReadLine(line: String, st: Scan) returns (st': Scan)
    ensures st' == ReadFreeformLine(st, line)
  {
    var l := Strip(line);
    st' := st;
    if StartsWith(l, "MODIFIED_RESUME:") {
      st' := st'.(part := ResumePart);
    } else if StartsWith(l, "CHANGES_SUMMARY:") {
      st' := st'.(part := SummaryPart);
    } else if st.part == ResumePart {
      if !StartsWith(l, "CHANGES_SUMMARY:") {
        st' := st'.(resume := st.resume + [line]);
      }
    } else if st.part == SummaryPart {
      if l != [] {
        st' := st'.(summary := st.summary + (l + " "));
      }
    }
  }

  /** `_parse_response` of the freeform editor. */
  method ParseEdit(response: String) returns (e: Edit)
    ensures e == Finish(ScanFreeform(Lines(Strip(response))))
  {
    var lines := Lines(Strip(response));
    var st := Start;
    for i := 0 to |lines|
      invariant st == ScanFreeform(lines[..i])
    {
      st := ReadLine(lines[i], st);
      TakeSnoc(lines, i);
      ScanAppend(lines[..i], lines[i]);
    }
    TakeAll(lines);
    var text := JoinedResume(st.resume);
    e := Edit(text, SummaryOrDefault(st.summary));
  }

  /**
   * `apply_changes` around one model call whose reply is `reply`; a client
   * error becomes "Freeform editing failed: ...".
   */
  method ApplyChanges(reply: Result<String>) returns (r: Result<Edit>)
    ensures reply.Err? ==> r == Err("Freeform editing failed: " + reply.error)
    ensures reply.Ok? ==> r == Ok(Finish(ScanFreeform(Lines(Strip(reply.value)))))
  {
    if reply.Err? {
      return Err("Freeform editing failed: " + reply.error);
    }
    var e := ParseEdit(reply.value);
    r := Ok(e);
  }
}
