/**
 * The three graphs of `workflow/graph.py` and the two routing functions
 * defined beside them.  A graph is an entry point and an edge per node;
 * running it applies each visited node's delta to the state until the edge
 * leads to END.  All three graphs are acyclic chains, and every edge lowers
 * a node's rank, which is what makes a run finish.
 */
module WorkflowGraph {
  import opened Wrappers
  import opened Text
  import opened ResumeScorer
  import opened WorkflowState
  import opened WorkflowNodes

  /** `analysis_workflow`, `modification_workflow`, `export_workflow` */
  datatype Graph = AnalysisGraph | ModificationGraph | ExportGraph

  /** The nodes each graph registers with `add_node`. */
  function Nodes(g: Graph): set<NodeName> {
    match g
    case AnalysisGraph => {Fetching, Scoring, Modifying, Rescoring, Exporting}
    case ModificationGraph => {Modifying, Rescoring, Optimizing, Validating}
    case ExportGraph => {Exporting}
  }

  /** The entry point; the analysis graph's is conditional on `job_url`. */
  function Entry(g: Graph, s: State): (n: NodeName)
    ensures n in Nodes(g)
  {
    match g
    case AnalysisGraph => if Truthy(s.jobUrl) then Fetching else Scoring
    case ModificationGraph => Modifying
    case ExportGraph => Exporting
  }

  /** A node's distance from the end of the longest chain. */
  function Rank(n: NodeName): nat {
    match n
    case Fetching => 6
    case Scoring => 5
    case Modifying => 4
    case Rescoring => 3
    case Optimizing => 2
    case Validating => 1
    case Exporting => 0
  }

  /** The edge out of a node; None is END. Every edge stays in the graph and lowers the rank. */
  function Next(g: Graph, n: NodeName): (m: Option<NodeName>)
    ensures m.Some? ==> Rank(m.value) < Rank(n)
    ensures n in Nodes(g) && m.Some? ==> m.value in Nodes(g)
  {
    match (g, n)
    case (AnalysisGraph, Fetching) => Some(Scoring)
    case (ModificationGraph, Modifying) => Some(Rescoring)
    case (ModificationGraph, Rescoring) => Some(Optimizing)
    case (ModificationGraph, Optimizing) => Some(Validating)
    case _ => None
  }

  /** The nodes a run from `n` visits, following the edges to END. */
  function Path(g: Graph, n: NodeName): (p: seq<NodeName>)
    decreases Rank(n)
  {
    match Next(g, n)
    case None => [n]
    case Some(m) => [n] + Path(g, m)
  }

  /** What running one node does to the state: the node's delta merged in. */
  function Step(agents: Agents): (NodeName, State) -> State {
    (n: NodeName, s: State) => Merge(s, NodeDelta(n, s, NoExtras, agents))
  }

  /** The run from node `n`: the final state and the nodes visited, in order. */
  function RunFrom(g: Graph, n: NodeName, s: State, step: (NodeName, State) -> State): (State, seq<NodeName>)
    decreases Rank(n)
  {
    var t := step(n, s);
    match Next(g, n)
    case None => (t, [n])
    case Some(m) =>
      var (u, rest) := RunFrom(g, m, t, step);
      (u, [n] + rest)
  }

  /** `invoke`, with `step` standing for the graph's registered node functions. */
  function Invoke(g: Graph, s: State, step: (NodeName, State) -> State): (State, seq<NodeName>) {
    RunFrom(g, Entry(g, s), s, step)
  }

  /**
   * What one node does to the state, whatever its agent returns: one
   * message added after the earlier ones, an error once set kept and any
   * error it sets non-empty and paired with the error stage, the input
   * and the approval untouched, the stage the node's success stage or the
   * error stage (the success stage when no error is set afterwards), and the
   * PDF set only by the export node, and by it whenever it succeeds.
   */
  predicate StepShape(n: NodeName, s: State, r: State) {
    && |r.messages| == |s.messages| + 1
    && r.messages[..|s.messages|] == s.messages
    && (s.error.Some? ==> r.error.Some?)
    && (r.error == s.error || (Truthy(r.error) && r.stage == Failed))
    && r.originalResume == s.originalResume && r.jobUrl == s.jobUrl && r.approved == s.approved
    && (r.stage == SuccessStage(n) || r.stage == Failed)
    && (r.error.None? ==> r.stage == SuccessStage(n))
    && (n != Exporting ==> r.pdf == s.pdf)
    && (n == Exporting && r.error.None? ==> r.pdf.Some?)
  }

  /** An error, when set, is one Python counts as true. */
  predicate ErrorTruthy(s: State) {
    s.error.Some? ==> Truthy(s.error)
  }

  /** Every node of `workflow/nodes.py` has that shape. */
  lemma StepShapeHolds(agents: Agents)
    ensures forall n, s :: StepShape(n, s, Step(agents)(n, s))
  {
    forall n, s ensures StepShape(n, s, Step(agents)(n, s)) {
      NodeOutcome(n, s, NoExtras, agents);
    }
  }

  /** A run follows the edges, whatever the nodes do. */
  lemma {:induction false} RunVisits(g: Graph, n: NodeName, s: State, step: (NodeName, State) -> State)
    ensures RunFrom(g, n, s, step).1 == Path(g, n)
    decreases Rank(n)
  {
    match Next(g, n)
    case None =>
    case Some(m) =>
      RunVisits(g, m, step(n, s), step);
  }

  /**
   * What a run does to the state, given nodes of that shape: it follows
   * the path, adds one message per node and keeps the earlier ones, keeps an
   * error once set, and leaves the stage set by the last node.
   */
  lemma {:induction false} RunShape(g: Graph, n: NodeName, s: State, step: (NodeName, State) -> State)
    requires forall m, t :: StepShape(m, t, step(m, t))
    ensures var (r, visited) := RunFrom(g, n, s, step);
      && visited == Path(g, n)
      && |r.messages| == |s.messages| + |visited|
      && r.messages[..|s.messages|] == s.messages
      && (s.error.Some? ==> r.error.Some?)
      && (ErrorTruthy(s) ==> ErrorTruthy(r))
      && r.originalResume == s.originalResume && r.jobUrl == s.jobUrl && r.approved == s.approved
      && (r.stage == SuccessStage(visited[|visited| - 1]) || r.stage == Failed)
      && (r.error.None? ==> r.stage == SuccessStage(visited[|visited| - 1]))
      && (Exporting !in visited ==> r.pdf == s.pdf)
    decreases Rank(n)
  {
    var t := step(n, s);
    assert StepShape(n, s, t);
    RunVisits(g, n, s, step);
    match Next(g, n)
    case None =>
    case Some(m) =>
      RunShape(g, m, t, step);
      var (u, rest) := RunFrom(g, m, t, step);
      assert RunFrom(g, n, s, step) == (u, [n] + rest);
      assert u.messages[..|s.messages|] == u.messages[..|t.messages|][..|s.messages|];
  }

  /** The path from each entry point. */
  lemma Paths()
    ensures Path(AnalysisGraph, Fetching) == [Fetching, Scoring]
    ensures Path(AnalysisGraph, Scoring) == [Scoring]
    ensures Path(ModificationGraph, Modifying) == [Modifying, Rescoring, Optimizing, Validating]
    ensures Path(ExportGraph, Exporting) == [Exporting]
  {
    assert Path(ModificationGraph, Optimizing) == [Optimizing, Validating];
  }

  /** The nodes each run visits, whatever the nodes do: the analysis graph never reaches its modification and rescoring nodes. */
  lemma InvokeVisits(s: State, step: (NodeName, State) -> State)
    ensures Invoke(AnalysisGraph, s, step).1 == if Truthy(s.jobUrl) then [Fetching, Scoring] else [Scoring]
    ensures Invoke(ModificationGraph, s, step).1 == [Modifying, Rescoring, Optimizing, Validating]
    ensures Invoke(ExportGraph, s, step).1 == [Exporting]
  {
    RunVisits(AnalysisGraph, Entry(AnalysisGraph, s), s, step);
    RunVisits(ModificationGraph, Modifying, s, step);
    RunVisits(ExportGraph, Exporting, s, step);
    Paths();
  }

  /** A failed fetch does not stop the analysis: scoring still runs, and when it succeeds the stage says awaiting selection while the fetch error stays set. */
  lemma FetchFailureStillScores(s: State, agents: Agents)
    requires FetchNeeded(s) && agents.fetch(s.jobUrl.value).Err?
    ensures var r := Invoke(AnalysisGraph, s, Step(agents)).0;
      && r.error.Some?
      && (agents.score(s.originalResume, []).Ok? ==>
            r.stage == AwaitingSelection && r.error == Some(FailurePrefix(Fetching) + agents.fetch(s.jobUrl.value).error))
  {
    var t := Step(agents)(Fetching, s);
    NodeOutcome(Fetching, s, NoExtras, agents);
    assert t.jobDescription == [] && t.originalResume == s.originalResume;
    NodeOutcome(Scoring, t, NoExtras, agents);
    assert Invoke(AnalysisGraph, s, Step(agents)).0 == Step(agents)(Scoring, t);
  }

  /** A run that ends without an error reached the graph's success stage; the analysis and modification runs leave the PDF as it was. */
  lemma CleanRun(g: Graph, s: State, step: (NodeName, State) -> State)
    requires forall m, t :: StepShape(m, t, step(m, t))
    ensures var r := Invoke(g, s, step).0;
      && (r.error.None? ==>
            r.stage == (match g
                        case AnalysisGraph => AwaitingSelection
                        case ModificationGraph => AwaitingApproval
                        case ExportGraph => Completed))
      && (g != ExportGraph ==> r.pdf == s.pdf)
  {
    RunShape(g, Entry(g, s), s, step);
    Paths();
  }

  /** The export run produces the PDF whenever it ends without an error. */
  lemma ExportProducesPdf(s: State, step: (NodeName, State) -> State)
    requires forall m, t :: StepShape(m, t, step(m, t))
    ensures var r := Invoke(ExportGraph, s, step).0;
      r.error.None? ==> r.pdf.Some? && r.stage == Completed
  {
    assert Invoke(ExportGraph, s, step).0 == step(Exporting, s);
    assert StepShape(Exporting, s, step(Exporting, s));
  }

  /** `any(s.get("selected", False) for s in suggestions)` */
  function AnySelected(ss: seq<Suggestion>): bool {
    if ss == [] then false else ss[0].selected || AnySelected(ss[1..])
  }

  lemma {:induction false} AnySelectedExactly(ss: seq<Suggestion>)
    ensures AnySelected(ss) <==> exists i :: 0 <= i < |ss| && ss[i].selected
  {
    if ss != [] {
      AnySelectedExactly(ss[1..]);
      if !ss[0].selected && AnySelected(ss) {
        var i :| 0 <= i < |ss[1..]| && ss[1..][i].selected;
        assert ss[i + 1].selected;
      }
      if exists i :: 0 <= i < |ss| && ss[i].selected {
        var i :| 0 <= i < |ss| && ss[i].selected;
        if i > 0 {
          assert ss[1..][i - 1].selected;
        }
      }
    }
  }

  /** The targets of `should_continue_to_modification`. */
  datatype ModificationRoute = ToModify | EndAfterScoring

  /**
   * `should_continue_to_modification`: an error ends the run; otherwise
   * it continues when any suggestion is selected.  With no error and the
   * suggestions still None, iterating over them raises a TypeError.
   */
  function ShouldContinueToModification(s: State): (r: Result<ModificationRoute>)
    ensures r == Ok(ToModify) <==>
      !Truthy(s.error) && s.analysis.Some? && exists i :: 0 <= i < |s.analysis.value.suggestions| && s.analysis.value.suggestions[i].selected
    ensures r.Err? <==> !Truthy(s.error) && s.analysis.None?
  {
    if Truthy(s.error) then Ok(EndAfterScoring)
    else match SuggestionsIn(s)
      case None => Err("TypeError: 'NoneType' object is not iterable")
      case Some(ss) =>
        AnySelectedExactly(ss);
        if AnySelected(ss) then Ok(ToModify) else Ok(EndAfterScoring)
  }

  /** The targets `should_continue_to_export` declares; it never returns `"rescoring"`. */
  datatype ExportRoute = ToExport | ToRescoring | EndAfterReview

  /** `should_continue_to_export` */
  function ShouldContinueToExport(s: State): (r: ExportRoute)
    ensures r != ToRescoring
    ensures r == ToExport <==> !Truthy(s.error) && s.approved
  {
    if Truthy(s.error) then EndAfterReview
    else if s.approved then ToExport
    else EndAfterReview
  }
}
