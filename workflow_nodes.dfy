/**
 * The nodes of `workflow/nodes.py`: each maps the state, and the outcome of
 * its agent, to a delta.  An agent is a function from the values the node
 * passes it to its result, or to the text of the exception it raised.
 * `Extras` are the keys a node reads with `state.get` that the declared
 * state does not have.
 */
module WorkflowNodes {
  import opened Wrappers
  import opened Text
  import opened ResumeScorer
  import opened ResumeRescorer
  import opened ResumeOptimizer
  import opened FormatValidator
  import opened WorkflowState

  /** `optimized_resume` and `freeform_resume`, which a node may find in the state it is given. */
  datatype Extras = Extras(optimizedResume: Option<String>, freeformResume: Option<String>)

  type Suggestions = seq<Suggestion>

  /** What the declared state carries: neither key. */
  const NoExtras := Extras(None, None)

  /** The delta of node `n` when its agent raised `e`: the error, the error stage and one message, nothing else. */
  function Failure(n: NodeName, e: String): Delta {
    Delta(None, None, None, None, None, None, None, Some(Failed), Some(FailurePrefix(n) + e), [ErrorMessage(e)])
  }

  /** Whether `fetch_job_description_node` calls the scraper: a URL is set and no description is. */
  predicate FetchNeeded(s: State) {
    Truthy(s.jobUrl) && s.jobDescription == []
  }

  /** `fetch_job_description_node` */
  function FetchJobNode(s: State, fetch: String -> Result<String>): (d: Delta)
    ensures |d.messages| == 1
    ensures !FetchNeeded(s) ==> d == Only([UsingProvidedDescription]).(stage := Some(AtScoring))
    ensures FetchNeeded(s) && fetch(s.jobUrl.value).Ok? ==>
      d == Only([JobFetched]).(jobDescription := Some(fetch(s.jobUrl.value).value), stage := Some(AtScoring))
    ensures FetchNeeded(s) && fetch(s.jobUrl.value).Err? ==> d.stage == Some(Failed) && d.error.Some? && d.jobDescription.None?
  {
    if FetchNeeded(s) then
      match fetch(s.jobUrl.value)
      case Ok(text) => Only([JobFetched]).(jobDescription := Some(text), stage := Some(AtScoring))
      case Err(e) => Failure(Fetching, e)
    else Only([UsingProvidedDescription]).(stage := Some(AtScoring))
  }

  /** `scoring_node` */
  function ScoringNode(s: State, score: (String, String) -> Result<Analysis>): Delta {
    match score(s.originalResume, s.jobDescription)
    case Ok(a) => Only([InitialScore(a.score)]).(analysis := Some(a), stage := Some(AwaitingSelection))
    case Err(e) => Failure(Scoring, e)
  }

  /** `state["suggestions"]` */
  function SuggestionsIn(s: State): Option<Suggestions> {
    if s.analysis.Some? then Some(s.analysis.value.suggestions) else None
  }

  /** `modification_node` */
  function ModificationNode(s: State, modifier: (String, Option<Suggestions>, String) -> Result<String>): Delta {
    match modifier(s.originalResume, SuggestionsIn(s), s.jobDescription)
    case Ok(m) => Only([ResumeModified]).(modifiedResume := Some(m), stage := Some(AtRescoring))
    case Err(e) => Failure(Modifying, e)
  }

  /** `state["initial_score"]` */
  function InitialScoreOf(s: State): Option<int> {
    if s.analysis.Some? then Some(s.analysis.value.score) else None
  }

  /** `rescoring_node` */
  function RescoringNode(s: State, rescore: (Option<String>, String, Option<int>) -> Result<Rescore>): Delta {
    match rescore(s.modifiedResume, s.jobDescription, InitialScoreOf(s))
    case Ok(r) => Only([NewScore(r.newScore, r.scoreImprovement)]).(rescore := Some(r), stage := Some(AtOptimization))
    case Err(e) => Failure(Rescoring, e)
  }

  /** `state["new_score"]` */
  function NewScoreOf(s: State): Option<int> {
    if s.rescore.Some? then Some(s.rescore.value.newScore) else None
  }

  /** `optimization_node`: its result keys are outside the declared state. */
  function OptimizationNode(s: State, optimize: (Option<String>, String, Option<int>) -> Result<Optimization>): Delta {
    match optimize(s.modifiedResume, s.jobDescription, NewScoreOf(s))
    case Ok(o) =>
      Only([Optimized(o.wordCountBefore, o.wordCountAfter, o.wordsRemoved)]).(optimization := Some(o), stage := Some(AtValidation))
    case Err(e) => Failure(Optimizing, e)
  }

  /** `state.get("optimized_resume") or state["modified_resume"]` */
  function ResumeToValidate(s: State, x: Extras): (r: Option<String>)
    ensures Truthy(x.optimizedResume) ==> r == x.optimizedResume
    ensures !Truthy(x.optimizedResume) ==> r == s.modifiedResume
  {
    if Truthy(x.optimizedResume) then x.optimizedResume else s.modifiedResume
  }

  /** `validation_node` */
  function ValidationNode(s: State, x: Extras, validate: Option<String> -> Result<Validation>): Delta {
    match validate(ResumeToValidate(s, x))
    case Ok(v) => Only([ValidationScore(v.score)]).(validation := Some(v), stage := Some(AwaitingApproval))
    case Err(e) => Failure(Validating, e)
  }

  /** `state.get("freeform_resume") or state.get("optimized_resume") or state["modified_resume"]` */
  function ResumeToExport(s: State, x: Extras): (r: Option<String>)
    ensures Truthy(x.freeformResume) ==> r == x.freeformResume
    ensures !Truthy(x.freeformResume) && Truthy(x.optimizedResume) ==> r == x.optimizedResume
    ensures !Truthy(x.freeformResume) && !Truthy(x.optimizedResume) ==> r == s.modifiedResume
  {
    if Truthy(x.freeformResume) then x.freeformResume
    else if Truthy(x.optimizedResume) then x.optimizedResume
    else s.modifiedResume
  }

  /** `export_pdf_node`; the exporter gives the bytes and the path written. */
  function ExportNode(s: State, x: Extras, exporter: Option<String> -> Result<Pdf>): Delta {
    match exporter(ResumeToExport(s, x))
    case Ok(p) => Only([PdfExported(p.path)]).(pdf := Some(p), stage := Some(Completed))
    case Err(e) => Failure(Exporting, e)
  }

  /** `human_feedback_node` */
  function HumanFeedbackNode(s: State): (d: Delta)
    ensures d == Only([AwaitingFeedback])
  {
    Only([AwaitingFeedback])
  }

  /** The stage each agent node sets when its agent succeeds. */
  function SuccessStage(n: NodeName): Stage {
    match n
    case Fetching => AtScoring
    case Scoring => AwaitingSelection
    case Modifying => AtRescoring
    case Rescoring => AtOptimization
    case Optimizing => AtValidation
    case Validating => AwaitingApproval
    case Exporting => Completed
  }

  /** The nodes of the three graphs. */
  datatype NodeName = Fetching | Scoring | Modifying | Rescoring | Optimizing | Validating | Exporting

  /** The agents the nodes call. */
  datatype Agents = Agents(
    fetch: String -> Result<String>,
    score: (String, String) -> Result<Analysis>,
    modifier: (String, Option<Suggestions>, String) -> Result<String>,
    rescore: (Option<String>, String, Option<int>) -> Result<Rescore>,
    optimize: (Option<String>, String, Option<int>) -> Result<Optimization>,
    validate: Option<String> -> Result<Validation>,
    exporter: Option<String> -> Result<Pdf>)

  /** The delta of a node. */
  function NodeDelta(n: NodeName, s: State, x: Extras, agents: Agents): Delta {
    match n
    case Fetching => FetchJobNode(s, agents.fetch)
    case Scoring => ScoringNode(s, agents.score)
    case Modifying => ModificationNode(s, agents.modifier)
    case Rescoring => RescoringNode(s, agents.rescore)
    case Optimizing => OptimizationNode(s, agents.optimize)
    case Validating => ValidationNode(s, x, agents.validate)
    case Exporting => ExportNode(s, x, agents.exporter)
  }

  /** Whether the agent a node calls raised on this state (the fetch node calls nothing when no fetch is needed). */
  predicate AgentFails(n: NodeName, s: State, x: Extras, agents: Agents) {
    match n
    case Fetching => FetchNeeded(s) && agents.fetch(s.jobUrl.value).Err?
    case Scoring => agents.score(s.originalResume, s.jobDescription).Err?
    case Modifying => agents.modifier(s.originalResume, SuggestionsIn(s), s.jobDescription).Err?
    case Rescoring => agents.rescore(s.modifiedResume, s.jobDescription, InitialScoreOf(s)).Err?
    case Optimizing => agents.optimize(s.modifiedResume, s.jobDescription, NewScoreOf(s)).Err?
    case Validating => agents.validate(ResumeToValidate(s, x)).Err?
    case Exporting => agents.exporter(ResumeToExport(s, x)).Err?
  }

  /** A delta that sets none of the agents' outputs. */
  predicate NoOutputs(d: Delta) {
    d.jobDescription.None? && d.analysis.None? && d.modifiedResume.None? && d.rescore.None?
    && d.optimization.None? && d.validation.None? && d.pdf.None?
  }

  /**
   * Every node adds exactly one message.  On success it sets its stage and
   * no error; on failure it sets the error stage, the node's prefix before
   * the exception's text as the error, and none of its outputs.
   */
  lemma NodeOutcome(n: NodeName, s: State, x: Extras, agents: Agents)
    ensures |NodeDelta(n, s, x, agents).messages| == 1
    ensures !AgentFails(n, s, x, agents) ==>
      NodeDelta(n, s, x, agents).stage == Some(SuccessStage(n)) && NodeDelta(n, s, x, agents).error.None?
    ensures AgentFails(n, s, x, agents) ==>
      var d := NodeDelta(n, s, x, agents);
      var e := ErrorOf(n, s, x, agents);
      && d.stage == Some(Failed) && d.error == Some(FailurePrefix(n) + e)
      && d.messages == [ErrorMessage(e)] && NoOutputs(d)
  {
    match n
    case Fetching =>
    case Scoring =>
    case Modifying =>
    case Rescoring =>
    case Optimizing =>
    case Validating =>
    case Exporting =>
  }

  /** The text each node puts before the exception's text in `error`. */
  function FailurePrefix(n: NodeName): (p: String)
    ensures p != []
  {
    match n
    case Fetching => "Failed to fetch job description: "
    case Scoring => "Scoring failed: "
    case Modifying => "Modification failed: "
    case Rescoring => "Rescoring failed: "
    case Optimizing => "Optimization failed: "
    case Validating => "Validation failed: "
    case Exporting => "PDF export failed: "
  }

  /** The exception text of a failing agent. */
  function ErrorOf(n: NodeName, s: State, x: Extras, agents: Agents): String
    requires AgentFails(n, s, x, agents)
  {
    match n
    case Fetching => agents.fetch(s.jobUrl.value).error
    case Scoring => agents.score(s.originalResume, s.jobDescription).error
    case Modifying => agents.modifier(s.originalResume, SuggestionsIn(s), s.jobDescription).error
    case Rescoring => agents.rescore(s.modifiedResume, s.jobDescription, InitialScoreOf(s)).error
    case Optimizing => agents.optimize(s.modifiedResume, s.jobDescription, NewScoreOf(s)).error
    case Validating => agents.validate(ResumeToValidate(s, x)).error
    case Exporting => agents.exporter(ResumeToExport(s, x)).error
  }

  /** Without the optimizer's keys in the state, validation and exporter both use the modified resume. */
  lemma DeclaredStateUsesModified(s: State)
    ensures ResumeToValidate(s, NoExtras) == s.modifiedResume
    ensures ResumeToExport(s, NoExtras) == s.modifiedResume
  {
  }

  /** The optimization node's result keys never reach the state: a successful optimization only moves the stage and adds its message. */
  lemma OptimizationDropped(s: State, optimize: (Option<String>, String, Option<int>) -> Result<Optimization>)
    requires optimize(s.modifiedResume, s.jobDescription, NewScoreOf(s)).Ok?
    ensures var o := optimize(s.modifiedResume, s.jobDescription, NewScoreOf(s)).value;
      Merge(s, OptimizationNode(s, optimize))
        == s.(stage := AtValidation, messages := s.messages + [Optimized(o.wordCountBefore, o.wordCountAfter, o.wordsRemoved)])
  {
  }

  /** The human feedback node only appends its message. */
  lemma FeedbackOnlyMessages(s: State)
    ensures Merge(s, HumanFeedbackNode(s)) == s.(messages := s.messages + [AwaitingFeedback])
  {
  }
}
