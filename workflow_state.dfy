/**
 * The workflow state of `workflow/state.py`, the initial state, and the
 * merge that applies a node's delta to it: `messages` accumulates, every
 * other key a delta carries overwrites, and keys outside the declared state
 * are dropped.  Each agent writes its outputs together, so the state keeps
 * them as one record per agent.
 */
module WorkflowState {
  import opened Wrappers
  import opened Text
  import opened ResumeScorer
  import opened ResumeRescorer
  import opened ResumeOptimizer
  import opened FormatValidator

  /** The values `current_stage` takes. */
  datatype Stage =
    | AtFetchJob
    | AtScoring
    | AwaitingSelection
    | AtRescoring
    | AtOptimization
    | AtValidation
    | AwaitingApproval
    | Completed
    | Failed

  function StageName(s: Stage): String {
    match s
    case AtFetchJob => "fetch_job"
    case AtScoring => "scoring"
    case AwaitingSelection => "awaiting_selection"
    case AtRescoring => "rescoring"
    case AtOptimization => "optimization"
    case AtValidation => "validation"
    case AwaitingApproval => "awaiting_approval"
    case Completed => "completed"
    case Failed => "error"
  }

  /** The messages the nodes record; `RoleOf` and `Content` give the dictionary each stands for. */
  datatype Message =
    | JobFetched
    | UsingProvidedDescription
    | ErrorMessage(reason: String)
    | InitialScore(score: int)
    | ResumeModified
    | NewScore(score: int, improvement: int)
    | Optimized(before: nat, after: nat, removed: int)
    | ValidationScore(score: int)
    | PdfExported(path: String)
    | AwaitingFeedback

  datatype Role = System | Ai

  function RoleOf(m: Message): Role {
    match m
    case InitialScore(_) => Ai
    case ResumeModified => Ai
    case NewScore(_, _) => Ai
    case Optimized(_, _, _) => Ai
    case ValidationScore(_) => Ai
    case _ => System
  }

  function Content(m: Message): String {
    match m
    case JobFetched => "Job description fetched successfully"
    case UsingProvidedDescription => "Using provided job description"
    case ErrorMessage(e) => "Error: " + e
    case InitialScore(n) => "Agent 1: Initial score: " + IntToString(n) + "/10"
    case ResumeModified => "Agent 2: Resume modified successfully"
    case NewScore(n, d) => "Agent 3: New score: " + IntToString(n) + "/10 (improvement: +" + IntToString(d) + ")"
    case Optimized(b, a, r) =>
      "Agent 5: Optimized resume from " + NatToString(b) + " to " + NatToString(a) + " words (-" + IntToString(r) + " words)"
    case ValidationScore(n) => "Agent 4: Validation score: " + IntToString(n) + "/10"
    case PdfExported(p) => "PDF exported: " + p
    case AwaitingFeedback => "Awaiting human feedback"
  }

  /** `pdf_path` and `pdf_bytes`. */
  datatype Pdf = Pdf(path: String, bytes: seq<bv8>)

  /**
   * `WorkflowState`.  `analysis` holds `initial_score`, `analysis` and
   * `suggestions`; `rescore` the seven rescoring keys; `validation` the
   * eight validation keys; None stands for the keys' initial None.
   */
  datatype State = State(
    originalResume: String,
    jobDescription: String,
    jobUrl: Option<String>,
    analysis: Option<Analysis>,
    modifiedResume: Option<String>,
    rescore: Option<Rescore>,
    validation: Option<Validation>,
    pdf: Option<Pdf>,
    stage: Stage,
    approved: bool,
    error: Option<String>,
    messages: seq<Message>)

  /** Python truthiness of an optional string. */
  predicate Truthy(x: Option<String>) {
    x.Some? && x.value != []
  }

  /** `create_initial_state` */
  function CreateInitialState(resume: String, jobDescription: Option<String>, jobUrl: Option<String>): (s: State)
    ensures s.originalResume == resume && s.jobUrl == jobUrl
    ensures s.jobDescription == if jobDescription.Some? then jobDescription.value else []
    ensures s.stage == AtFetchJob <==> Truthy(jobUrl)
    ensures s.stage == AtScoring <==> !Truthy(jobUrl)
    ensures !s.approved && s.error.None? && s.messages == []
    ensures s.analysis.None? && s.modifiedResume.None? && s.rescore.None? && s.validation.None? && s.pdf.None?
  {
    State(resume, if jobDescription.Some? then jobDescription.value else [], jobUrl,
          None, None, None, None, None,
          if Truthy(jobUrl) then AtFetchJob else AtScoring, false, None, [])
  }

  /**
   * What a node returns: the keys it sets (None where it sets nothing) and
   * its messages.  `optimization` holds the optimizer's keys, which are not
   * part of the declared state.
   */
  datatype Delta = Delta(
    jobDescription: Option<String>,
    analysis: Option<Analysis>,
    modifiedResume: Option<String>,
    rescore: Option<Rescore>,
    optimization: Option<Optimization>,
    validation: Option<Validation>,
    pdf: Option<Pdf>,
    stage: Option<Stage>,
    error: Option<String>,
    messages: seq<Message>)

  /** A delta with only messages. */
  function Only(messages: seq<Message>): Delta {
    Delta(None, None, None, None, None, None, None, None, None, messages)
  }

  function Pick<T>(update: Option<T>, current: T): T {
    if update.Some? then update.value else current
  }

  function PickSome<T>(update: Option<T>, current: Option<T>): Option<T> {
    if update.Some? then update else current
  }

  /** The state after a node's delta: messages appended, each key the delta sets overwritten, the rest kept. */
  function Merge(s: State, d: Delta): (r: State)
    ensures r.messages == s.messages + d.messages
    ensures r.originalResume == s.originalResume && r.jobUrl == s.jobUrl && r.approved == s.approved
    ensures d.error.None? ==> r.error == s.error
    ensures d.error.Some? ==> r.error == d.error
    ensures d.stage.None? ==> r.stage == s.stage
    ensures d.stage.Some? ==> r.stage == d.stage.value
    ensures r.jobDescription == (if d.jobDescription.Some? then d.jobDescription.value else s.jobDescription)
    ensures r.analysis == (if d.analysis.Some? then d.analysis else s.analysis)
    ensures r.modifiedResume == (if d.modifiedResume.Some? then d.modifiedResume else s.modifiedResume)
    ensures r.rescore == (if d.rescore.Some? then d.rescore else s.rescore)
    ensures r.validation == (if d.validation.Some? then d.validation else s.validation)
    ensures r.pdf == (if d.pdf.Some? then d.pdf else s.pdf)
  {
    State(s.originalResume, Pick(d.jobDescription, s.jobDescription), s.jobUrl,
          PickSome(d.analysis, s.analysis), PickSome(d.modifiedResume, s.modifiedResume),
          PickSome(d.rescore, s.rescore), PickSome(d.validation, s.validation), PickSome(d.pdf, s.pdf),
          Pick(d.stage, s.stage), s.approved, PickSome(d.error, s.error), s.messages + d.messages)
  }

  /** The optimizer's keys never reach the state: a delta merges the same with or without them. */
  lemma OptimizationDropped(s: State, d: Delta)
    ensures Merge(s, d) == Merge(s, d.(optimization := None))
  {
  }

  /** A delta that sets only the stage, the error and messages changes nothing else. */
  lemma MergeOnlyControl(s: State, d: Delta)
    requires d.jobDescription.None? && d.analysis.None? && d.modifiedResume.None? && d.rescore.None?
    requires d.validation.None? && d.pdf.None?
    ensures var r := Merge(s, d);
      r.(stage := s.stage, error := s.error, messages := s.messages) == s
  {
  }

  /** Merging is additive on messages, and an error once set stays set (possibly replaced by a later one). */
  lemma {:induction false} MergeAll(s: State, ds: seq<Delta>)
    ensures var r := MergeEach(s, ds);
      && |r.messages| == |s.messages| + MessageCount(ds)
      && (s.error.Some? ==> r.error.Some?)
      && r.messages[..|s.messages|] == s.messages
  {
    if ds != [] {
      var front := ds[..|ds| - 1];
      MergeAll(s, front);
      var m := MergeEach(s, front);
      assert MergeEach(s, ds) == Merge(m, ds[|ds| - 1]);
      assert Merge(m, ds[|ds| - 1]).messages[..|m.messages|] == m.messages;
      assert Merge(m, ds[|ds| - 1]).messages[..|s.messages|] == m.messages[..|s.messages|];
    }
  }

  /** Deltas applied in order. */
  function MergeEach(s: State, ds: seq<Delta>): State {
    if ds == [] then s else Merge(MergeEach(s, ds[..|ds| - 1]), ds[|ds| - 1])
  }

  function MessageCount(ds: seq<Delta>): nat {
    if ds == [] then 0 else MessageCount(ds[..|ds| - 1]) + |ds[|ds| - 1].messages|
  }
}
