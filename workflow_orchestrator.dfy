/**
 * `ResumeWorkflowOrchestrator` of `workflow/orchestrator.py`: the three
 * phases, each one invocation of its graph, the human steps between them
 * (selecting suggestions, approving), the status summary, and the run of
 * the whole workflow in one go.  The orchestrator keeps nothing but the
 * compiled graphs, so its operations are functions of the state they are
 * given; `step` stands for the graphs' node functions.
 */
module WorkflowOrchestrator {
  import opened Wrappers
  import opened Text
  import opened ResumeScorer
  import opened ResumeRescorer
  import opened WorkflowState
  import opened WorkflowNodes
  import opened WorkflowGraph

  /** `start_analysis` */
  function StartAnalysis(resume: String, jobDescription: Option<String>, jobUrl: Option<String>,
                         step: (NodeName, State) -> State): State {
    Invoke(AnalysisGraph, CreateInitialState(resume, jobDescription, jobUrl), step).0
  }

  /** `apply_modifications` */
  function ApplyModifications(s: State, step: (NodeName, State) -> State): State {
    Invoke(ModificationGraph, s, step).0
  }

  /** `export_resume` */
  function ExportResume(s: State, step: (NodeName, State) -> State): State {
    Invoke(ExportGraph, s, step).0
  }

  /**
   * The analysis phase from a given description: the scoring node alone
   * runs, so the state holds exactly one message, is not approved and has no
   * PDF, and is awaiting selection unless scoring failed.
   */
  lemma StartAnalysisOutcome(resume: String, jobDescription: String, step: (NodeName, State) -> State)
    requires forall m, t :: StepShape(m, t, step(m, t))
    ensures var r := StartAnalysis(resume, Some(jobDescription), None, step);
      && |r.messages| == 1
      && r.originalResume == resume && !r.approved && r.pdf.None?
      && (r.error.None? ==> r.stage == AwaitingSelection)
      && (r.error.Some? ==> r.stage == Failed && Truthy(r.error))
  {
    var s := CreateInitialState(resume, Some(jobDescription), None);
    assert StartAnalysis(resume, Some(jobDescription), None, step) == step(Scoring, s);
    assert StepShape(Scoring, s, step(Scoring, s));
  }

  /** The suggestion with `selected` set to whether its id is among `ids`. */
  function Chosen(x: Suggestion, ids: seq<nat>): Suggestion {
    x.(selected := x.id in ids)
  }

  /** Every suggestion re-selected against `ids`, in order. */
  function Reselect(ss: seq<Suggestion>, ids: seq<nat>): seq<Suggestion> {
    if ss == [] then [] else Reselect(ss[..|ss| - 1], ids) + [Chosen(ss[|ss| - 1], ids)]
  }

  lemma {:induction false} ReselectElements(ss: seq<Suggestion>, ids: seq<nat>)
    ensures |Reselect(ss, ids)| == |ss|
    ensures forall i :: 0 <= i < |ss| ==>
      Reselect(ss, ids)[i].selected == (ss[i].id in ids)
      && Reselect(ss, ids)[i].(selected := ss[i].selected) == ss[i]
  {
    if ss != [] {
      ReselectElements(ss[..|ss| - 1], ids);
    }
  }

  /** The state after `update_suggestions`: unchanged unless it holds a non-empty list of suggestions. */
  function WithSelection(s: State, ids: seq<nat>): State {
    if s.analysis.Some? && s.analysis.value.suggestions != [] then
      s.(analysis := Some(s.analysis.value.(suggestions := Reselect(s.analysis.value.suggestions, ids))))
    else s
  }

  /**
   * `update_suggestions`: each suggestion becomes selected exactly when its
   * id is listed, and nothing else about it or the state changes.
   */
  lemma SelectionExactly(s: State, ids: seq<nat>)
    ensures var r := WithSelection(s, ids);
      && r.(analysis := s.analysis) == s
      && (s.analysis.None? <==> r.analysis.None?)
      && (s.analysis.Some? ==>
            var ss := s.analysis.value.suggestions;
            var rs := r.analysis.value.suggestions;
            && r.analysis.value.(suggestions := ss) == s.analysis.value
            && |rs| == |ss|
            && forall i :: 0 <= i < |ss| ==> rs[i].selected == (ss[i].id in ids) && rs[i].(selected := ss[i].selected) == ss[i])
  {
    if s.analysis.Some? {
      ReselectElements(s.analysis.value.suggestions, ids);
    }
  }

  /** `update_suggestions`, which sets the flags one suggestion at a time. */
  method UpdateSuggestions(s: State, ids: seq<nat>) returns (r: State)
    ensures r == WithSelection(s, ids)
  {
    r := s;
    if s.analysis.Some? && s.analysis.value.suggestions != [] {
      var ss := s.analysis.value.suggestions;
      var updated: seq<Suggestion> := [];
      for i := 0 to |ss|
        invariant updated == Reselect(ss[..i], ids)
      {
        assert ss[..i + 1][..i] == ss[..i];
        updated := updated + [Chosen(ss[i], ids)];
      }
      assert ss[..|ss|] == ss;
      r := s.(analysis := Some(s.analysis.value.(suggestions := updated)));
    }
  }

  /** `approve_resume` */
  function ApproveResume(s: State): (r: State)
    ensures r.approved
    ensures r.(approved := s.approved) == s
  {
    s.(approved := true)
  }

  /** Approval is what routes a state without an error to export. */
  lemma ApprovalRoutesToExport(s: State)
    ensures ShouldContinueToExport(ApproveResume(s)) == ToExport <==> !Truthy(s.error)
    ensures !s.approved ==> ShouldContinueToExport(s) != ToExport
  {
  }

  /** What `get_workflow_status` reports. */
  datatype Status = Status(
    stage: String,
    initialScore: Option<int>,
    newScore: Option<int>,
    improvement: Option<int>,
    hasError: bool,
    errorMessage: Option<String>,
    approved: bool,
    pdfReady: bool,
    messageCount: nat)

  /** `get_workflow_status` */
  function GetWorkflowStatus(s: State): (st: Status)
    ensures st.hasError <==> Truthy(s.error)
    ensures st.pdfReady <==> s.pdf.Some? && s.pdf.value.bytes != []
    ensures st.messageCount == |s.messages| && st.approved == s.approved && st.errorMessage == s.error
    ensures st.initialScore.Some? <==> s.analysis.Some?
    ensures st.newScore.Some? <==> s.rescore.Some?
  {
    Status(StageName(s.stage),
           if s.analysis.Some? then Some(s.analysis.value.score) else None,
           if s.rescore.Some? then Some(s.rescore.value.newScore) else None,
           if s.rescore.Some? then Some(s.rescore.value.scoreImprovement) else None,
           Truthy(s.error), s.error, s.approved,
           s.pdf.Some? && s.pdf.value.bytes != [],
           |s.messages|)
  }

  /** The status of a fresh state: no error, no PDF, no messages, nothing scored yet. */
  lemma InitialStatus(resume: String, jobDescription: Option<String>, jobUrl: Option<String>)
    ensures var st := GetWorkflowStatus(CreateInitialState(resume, jobDescription, jobUrl));
      && !st.hasError && !st.pdfReady && !st.approved && st.messageCount == 0
      && st.initialScore.None? && st.newScore.None? && st.improvement.None?
  {
  }

  /** `[s["id"] for s in state["suggestions"]]` */
  function AllIds(ss: seq<Suggestion>): (ids: seq<nat>)
    ensures |ids| == |ss| && forall i :: 0 <= i < |ss| ==> ids[i] == ss[i].id
  {
    seq(|ss|, i requires 0 <= i < |ss| => ss[i].id)
  }

  /** Stage 2 of `run_full_workflow`: the listed suggestions, or all of them when none are listed. */
  function Selection(s: State, ids: Option<seq<nat>>): State {
    if ids.Some? then WithSelection(s, ids.value)
    else if s.analysis.Some? && s.analysis.value.suggestions != [] then WithSelection(s, AllIds(s.analysis.value.suggestions))
    else s
  }

  /** With no ids given, every suggestion ends up selected. */
  lemma SelectAllByDefault(s: State)
    requires s.analysis.Some?
    ensures var r := Selection(s, None);
      && r.analysis.Some?
      && |r.analysis.value.suggestions| == |s.analysis.value.suggestions|
      && forall i :: 0 <= i < |r.analysis.value.suggestions| ==> r.analysis.value.suggestions[i].selected
  {
    var ss := s.analysis.value.suggestions;
    if ss != [] {
      var ids := AllIds(ss);
      SelectionExactly(s, ids);
      forall i | 0 <= i < |ss|
        ensures ss[i].id in ids
      {
        assert ids[i] == ss[i].id;
      }
    }
  }

  /** `run_full_workflow` on a given description, which never fetches. */
  function FullWorkflow(resume: String, jobDescription: String, ids: Option<seq<nat>>, autoApprove: bool,
                        step: (NodeName, State) -> State): State {
    var analysed := StartAnalysis(resume, Some(jobDescription), None, step);
    if Truthy(analysed.error) then analysed
    else
      var modified := ApplyModifications(Selection(analysed, ids), step);
      if Truthy(modified.error) then modified
      else if autoApprove then ExportResume(ApproveResume(modified), step)
      else modified
  }

  /** `run_full_workflow`, phase by phase with its early returns. */
  method RunFullWorkflow(resume: String, jobDescription: String, ids: Option<seq<nat>>, autoApprove: bool,
                         step: (NodeName, State) -> State) returns (r: State)
    ensures r == FullWorkflow(resume, jobDescription, ids, autoApprove, step)
  {
    r := StartAnalysis(resume, Some(jobDescription), None, step);
    if Truthy(r.error) {
      return;
    }
    if ids.Some? {
      r := UpdateSuggestions(r, ids.value);
    } else if r.analysis.Some? && r.analysis.value.suggestions != [] {
      r := UpdateSuggestions(r, AllIds(r.analysis.value.suggestions));
    }
    r := ApplyModifications(r, step);
    if Truthy(r.error) {
      return;
    }
    if autoApprove {
      r := ApproveResume(r);
      r := ExportResume(r, step);
    }
  }

  /** The modification phase adds its four messages and leaves approval and the PDF alone. */
  lemma ModificationPhase(s: State, step: (NodeName, State) -> State)
    requires forall m, t :: StepShape(m, t, step(m, t))
    requires ErrorTruthy(s)
    ensures var r := ApplyModifications(s, step);
      && |r.messages| == |s.messages| + 4
      && r.approved == s.approved && r.pdf == s.pdf
      && ErrorTruthy(r)
      && (r.error.None? ==> r.stage == AwaitingApproval)
  {
    RunShape(ModificationGraph, Modifying, s, step);
    CleanRun(ModificationGraph, s, step);
    Paths();
  }

  /** Approving and exporting adds one message and, unless it ends in an error, completes with the PDF. */
  lemma ExportPhase(s: State, step: (NodeName, State) -> State)
    requires forall m, t :: StepShape(m, t, step(m, t))
    ensures var r := ExportResume(ApproveResume(s), step);
      && |r.messages| == |s.messages| + 1
      && r.approved
      && (r.error.None? ==> r.pdf.Some? && r.stage == Completed)
  {
    var approved := ApproveResume(s);
    assert ExportResume(approved, step) == step(Exporting, approved);
    assert StepShape(Exporting, approved, step(Exporting, approved));
  }

  /**
   * The outcome of the whole workflow: one message when the analysis
   * fails, five after the modification phase, six after export; a PDF only
   * when approval was automatic; and, when no error is left, the stage
   * awaiting approval, or completed with the PDF ready when approved.
   */
  lemma FullWorkflowOutcome(resume: String, jobDescription: String, ids: Option<seq<nat>>, autoApprove: bool,
                            step: (NodeName, State) -> State)
    requires forall m, t :: StepShape(m, t, step(m, t))
    ensures var r := FullWorkflow(resume, jobDescription, ids, autoApprove, step);
      && |r.messages| in {1, 5, 6}
      && (|r.messages| == 6 <==> r.approved)
      && (r.pdf.Some? ==> autoApprove && r.approved)
      && (!autoApprove ==> r.pdf.None? && !r.approved)
      && (r.error.None? ==> r.stage == if autoApprove then Completed else AwaitingApproval)
      && (r.error.None? && autoApprove ==> r.pdf.Some?)
  {
    var analysed := StartAnalysis(resume, Some(jobDescription), None, step);
    StartAnalysisOutcome(resume, jobDescription, step);
    if !Truthy(analysed.error) {
      var selected := Selection(analysed, ids);
      if ids.Some? {
        SelectionExactly(analysed, ids.value);
      } else if analysed.analysis.Some? && analysed.analysis.value.suggestions != [] {
        SelectionExactly(analysed, AllIds(analysed.analysis.value.suggestions));
      }
      assert selected.(analysis := analysed.analysis) == analysed;
      ModificationPhase(selected, step);
      var modified := ApplyModifications(selected, step);
      if !Truthy(modified.error) && autoApprove {
        ExportPhase(modified, step);
      }
    }
  }
}
