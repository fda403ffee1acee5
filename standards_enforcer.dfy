/**
 * The standards enforcer: an agent is run, its resume checked against the
 * resume standards, and on CRITICAL issues the agent is run again with
 * feedback, up to `maxRetries` retries; after the last attempt the
 * structure fixer is applied as a fallback.
 *
 * The agent is a parameter: `agent(attempt, feedback)` is what it returns on
 * the call numbered `attempt` (from 0) when `standards_feedback` holds
 * `feedback` (None before the first retry).
 */
module StandardsEnforcement {
  import opened Text
  import opened Wrappers
  import opened ResumeStandards
  import ResumeStructure

  // ---------------------------------------------------------------------------
  // Feedback for a retry
  // ---------------------------------------------------------------------------

  const FeedbackHeader: String := "\n\n**CRITICAL: Standards Validation Failed. You MUST fix these issues:**\n\n"
  const CriticalHeading: String := "**CRITICAL ISSUES:**\n"
  const Reminders: String :=
    "\n**Please review the Resume Structure Standards and ensure compliance.**\n"
    + "\nKey reminders:\n"
    + "- Job metadata lines MUST end with backslash (\\)\n"
    + "- Each job MUST have an italicized headline immediately after metadata\n"
    + "- NO blank lines between metadata and headline\n"

  /** The feedback line for one issue: its category in brackets, then its description. */
  function IssueLine(x: StandardsIssue): String {
    "- [" + Category(x) + "] " + Description(x) + "\n"
  }

  /** The lines of `issues`, in order. */
  function IssueLines(issues: seq<StandardsIssue>): String {
    ConcatMap(issues, IssueLine)
  }

  /**
   * The feedback text for the critical issues `critical`: the header, the
   * heading and a line per issue when there is one, then the reminders.
   */
  function FeedbackText(critical: seq<StandardsIssue>, line: StandardsIssue -> String,
                        header: String, heading: String, reminders: String): String {
    header + (if critical == [] then [] else heading + ConcatMap(critical, line)) + reminders
  }

  /** `_generate_feedback`: the header, the critical issues and the fixed reminders. */
  function FeedbackOf(issues: seq<StandardsIssue>): String {
    FeedbackText(CriticalIssues(issues), IssueLine, FeedbackHeader, CriticalHeading, Reminders)
  }

  /** Every feedback text starts with the header and ends with the reminders. */
  lemma FeedbackTextFrame(critical: seq<StandardsIssue>, line: StandardsIssue -> String,
                          header: String, heading: String, reminders: String)
    ensures var f := FeedbackText(critical, line, header, heading, reminders);
      StartsWith(f, header) && EndsWith(f, reminders)
  {
    var b := if critical == [] then [] else heading + ConcatMap(critical, line);
    assert (header + b + reminders)[..|header|] == header;
    assert (header + b + reminders)[|header + b|..] == reminders;
  }

  /** Every feedback starts with the header and ends with the three reminders. */
  lemma FeedbackFrame(issues: seq<StandardsIssue>)
    ensures StartsWith(FeedbackOf(issues), FeedbackHeader)
    ensures EndsWith(FeedbackOf(issues), Reminders)
  {
    FeedbackTextFrame(CriticalIssues(issues), IssueLine, FeedbackHeader, CriticalHeading, Reminders);
  }

  /** Without a critical issue the feedback is the header and the reminders alone. */
  lemma FeedbackWithoutCritical(issues: seq<StandardsIssue>)
    requires CriticalIssues(issues) == []
    ensures FeedbackOf(issues) == FeedbackHeader + Reminders
  {
  }

  /** The line of every critical issue is in the text, after those of the critical issues before it. */
  lemma CriticalLineListed(critical: seq<StandardsIssue>, line: StandardsIssue -> String,
                           header: String, heading: String, reminders: String, k: nat)
    requires k < |critical|
    ensures FeedbackText(critical, line, header, heading, reminders)
      == header + heading + ConcatMap(critical[..k], line) + line(critical[k]) + ConcatMap(critical[k + 1..], line) + reminders
  {
    ConcatMapAt(critical, k, line);
  }

  /** The feedback has the line of every critical issue, in the order of the issues. */
  lemma CriticalIssueListed(issues: seq<StandardsIssue>, k: nat)
    requires k < |CriticalIssues(issues)|
    ensures var c := CriticalIssues(issues);
      FeedbackOf(issues)
        == FeedbackHeader + CriticalHeading + IssueLines(c[..k]) + IssueLine(c[k]) + IssueLines(c[k + 1..]) + Reminders
  {
    CriticalLineListed(CriticalIssues(issues), IssueLine, FeedbackHeader, CriticalHeading, Reminders, k);
  }

  predicate AllCritical(c: seq<StandardsIssue>) {
    forall k :: 0 <= k < |c| ==> SeverityOf(c[k]) == Critical
  }

  /** The critical issues are critical. */
  lemma {:induction false} CriticalIssuesCritical(issues: seq<StandardsIssue>)
    ensures AllCritical(CriticalIssues(issues))
    decreases |issues|
  {
    if issues != [] {
      CriticalIssuesCritical(issues[..|issues| - 1]);
    }
  }

  /** Issues that are all critical are kept as they are. */
  lemma {:induction false} CriticalKept(c: seq<StandardsIssue>)
    requires AllCritical(c)
    ensures CriticalIssues(c) == c
    decreases |c|
  {
    if c != [] {
      var c' := c[..|c| - 1];
      assert forall k :: 0 <= k < |c'| ==> c'[k] == c[k];
      CriticalKept(c');
      assert c == c' + [c[|c| - 1]];
    }
  }

  /** Only the critical issues shape the feedback: warnings leave it unchanged. */
  lemma FeedbackIgnoresWarnings(issues: seq<StandardsIssue>)
    ensures FeedbackOf(issues) == FeedbackOf(CriticalIssues(issues))
  {
    CriticalIssuesCritical(issues);
    CriticalKept(CriticalIssues(issues));
  }

  /** `_generate_feedback` as the loop that appends one line per critical issue. */
  method GenerateFeedback(issues: seq<StandardsIssue>) returns (feedback: String)
    ensures feedback == FeedbackOf(issues)
  {
    feedback := FeedbackHeader;
    var critical := CriticalIssues(issues);
    if |critical| > 0 {
      feedback := feedback + CriticalHeading;
      feedback := AppendLines(feedback, critical, IssueLine);
      AppendAssoc(FeedbackHeader, CriticalHeading, ConcatMap(critical, IssueLine));
    }
    feedback := feedback + Reminders;
  }

  /** The `for issue in critical` loop: one rendered line per issue, appended in order. */
  method AppendLines(text: String, critical: seq<StandardsIssue>, line: StandardsIssue -> String) returns (text': String)
    ensures text' == text + ConcatMap(critical, line)
  {
    text' := text;
    for i := 0 to |critical|
      invariant text' == text + ConcatMap(critical[..i], line)
    {
      ConcatMapAppend(critical[..i], [critical[i]], line);
      ConcatMapOne(critical[i], line);
      assert critical[..i + 1] == critical[..i] + [critical[i]];
      AppendAssoc(text, ConcatMap(critical[..i], line), line(critical[i]));
      text' := text' + line(critical[i]);
    }
    TakeAll(critical);
  }

  // ---------------------------------------------------------------------------
  // One attempt
  // ---------------------------------------------------------------------------

  /** What an agent returns: a resume text (or nothing), or a record with the modified or optimized resume. */
  datatype AgentResult =
    | Plain(text: Option<String>)
    | Record(modified: Option<String>, optimized: Option<String>)

  /** A value Python reads as true: present and not empty. */
  predicate Truthy(x: Option<String>) {
    x.Some? && x.value != []
  }

  /** The resume an agent result carries, when it is not empty. */
  function ReturnedResume(x: AgentResult): (r: Option<String>)
    ensures r.Some? ==> r.value != []
    ensures x.Record? && Truthy(x.modified) ==> r == x.modified
    ensures x.Record? && !Truthy(x.modified) ==> r == (if Truthy(x.optimized) then x.optimized else None)
    ensures x.Plain? ==> r == (if Truthy(x.text) then x.text else None)
  {
    var candidate := match x
      case Plain(t) => t
      case Record(m, o) => if Truthy(m) then m else o;
    if Truthy(candidate) then candidate else None
  }

  /** An entry of the enforcement log: an issue found on an attempt (numbered from 1), or the fallback fixes. */
  datatype LogEntry =
    | IssueLogged(attempt: nat, issue: StandardsIssue)
    | FixesApplied(attempt: nat)

  /** The entries for the issues of one attempt, in order. */
  function IssueEntries(attempt: nat, issues: seq<StandardsIssue>): (r: seq<LogEntry>)
    ensures |r| == |issues|
    ensures forall k :: 0 <= k < |r| ==> r[k] == IssueLogged(attempt, issues[k])
  {
    seq(|issues|, k requires 0 <= k < |issues| => IssueLogged(attempt, issues[k]))
  }

  const NoResumeError: String := "Agent returned no resume"

  /** The outcome of `enforce_with_retry`. */
  datatype Enforcement =
    | NoResume(resume: String, error: String)
    | Enforced(resume: String, validation: StandardsReport, retryCount: nat, log: seq<LogEntry>,
               inputWords: nat, outputWords: nat)

  /** `_apply_programmatic_fixes`: the structure fixer's output, with no original resume to take headlines from. */
  function FixedResume(resume: String): String {
    var lines := Lines(resume);
    var f := ResumeStructure.FixFrom(lines, ResumeStructure.KindsOf(lines), 0, false, ResumeStructure.OriginalHeadlines(None));
    Join("\n", f.fixed)
  }

  type Agent = (nat, Option<String>) -> AgentResult
  type Check = String -> StandardsReport

  /** A call that returned a resume whose check found a critical issue. */
  predicate Rejected(check: Check, x: AgentResult) {
    var r := ReturnedResume(x);
    r.Some? && CriticalIssues(check(r.value).issues) != []
  }

  // ---------------------------------------------------------------------------
  // The retry loop
  // ---------------------------------------------------------------------------

  /**
   * The loop from attempt `attempt` on, with the feedback it passes, the log
   * so far and the feedback passed to each call so far; the result comes with
   * the feedback passed to every call made.
   */
  function EnforceFrom(agent: Agent, check: Check, fix: String -> String, feedbackOf: seq<StandardsIssue> -> String, input: String, maxRetries: nat,
                       attempt: nat, feedback: Option<String>, log: seq<LogEntry>, calls: seq<Option<String>>)
    : (Enforcement, seq<Option<String>>)
    requires attempt <= maxRetries
    decreases maxRetries - attempt
  {
    var calls' := calls + [feedback];
    match ReturnedResume(agent(attempt, feedback))
    case None => (NoResume(input, NoResumeError), calls')
    case Some(resume) =>
      var v := check(resume);
      var log' := log + IssueEntries(attempt + 1, v.issues);
      if CriticalIssues(v.issues) == [] then
        (Enforced(resume, v, attempt, log', WordCount(input), v.wordCount), calls')
      else if attempt >= maxRetries then
        (Enforced(fix(resume), v, attempt, log' + [FixesApplied(attempt + 1)], WordCount(input), v.wordCount), calls')
      else
        EnforceFrom(agent, check, fix, feedbackOf, input, maxRetries, attempt + 1, Some(feedbackOf(v.issues)), log', calls')
  }

  /**
   * `enforce_with_retry` with the feedback passed to each call of the agent,
   * for a standards check, a fallback fix and a feedback text; the enforcer
   * uses `StandardsOf`, `FixedResume` and `FeedbackOf`.
   */
  function Enforce(agent: Agent, check: Check, fix: String -> String, feedbackOf: seq<StandardsIssue> -> String,
                   input: String, maxRetries: nat): (Enforcement, seq<Option<String>>) {
    EnforceFrom(agent, check, fix, feedbackOf, input, maxRetries, 0, None, [], [])
  }

  /** The loop calls the agent at least once more and at most once per attempt left. */
  lemma {:induction false} CallsBounded(agent: Agent, check: Check, fix: String -> String, feedbackOf: seq<StandardsIssue> -> String, input: String, maxRetries: nat,
                                         attempt: nat, feedback: Option<String>, log: seq<LogEntry>, calls: seq<Option<String>>)
    requires attempt <= maxRetries
    ensures var calls' := EnforceFrom(agent, check, fix, feedbackOf, input, maxRetries, attempt, feedback, log, calls).1;
      |calls| < |calls'| <= |calls| + maxRetries + 1 - attempt && calls'[..|calls|] == calls && calls'[|calls|] == feedback
    decreases maxRetries - attempt
  {
    var calls' := calls + [feedback];
    var resume := ReturnedResume(agent(attempt, feedback));
    if resume.Some? {
      var v := check(resume.value);
      if CriticalIssues(v.issues) != [] && attempt < maxRetries {
        var log' := log + IssueEntries(attempt + 1, v.issues);
        var fb := Some(feedbackOf(v.issues));
        CallsBounded(agent, check, fix, feedbackOf, input, maxRetries, attempt + 1, fb, log', calls');
        var out := EnforceFrom(agent, check, fix, feedbackOf, input, maxRetries, attempt + 1, fb, log', calls').1;
        assert out[..|calls|] == out[..|calls'|][..|calls|];
      }
    }
  }

  /** The agent is called at least once and at most `maxRetries + 1` times, the first time without feedback. */
  lemma CallCount(agent: Agent, check: Check, fix: String -> String, feedbackOf: seq<StandardsIssue> -> String,
                  input: String, maxRetries: nat)
    ensures var calls := Enforce(agent, check, fix, feedbackOf, input, maxRetries).1;
      1 <= |calls| <= maxRetries + 1 && calls[0] == None
  {
    CallsBounded(agent, check, fix, feedbackOf, input, maxRetries, 0, None, [], []);
  }

  /**
   * Call `j`, when it is not the last, returned a resume with a critical issue,
   * and call `j + 1` was given the feedback for that resume's issues.
   */
  lemma {:induction false} RetriedAt(agent: Agent, check: Check, fix: String -> String, feedbackOf: seq<StandardsIssue> -> String, input: String, maxRetries: nat,
                                      attempt: nat, feedback: Option<String>, log: seq<LogEntry>, calls: seq<Option<String>>, j: nat)
    requires attempt <= maxRetries && |calls| == attempt
    requires attempt <= j < |EnforceFrom(agent, check, fix, feedbackOf, input, maxRetries, attempt, feedback, log, calls).1| - 1
    ensures var calls' := EnforceFrom(agent, check, fix, feedbackOf, input, maxRetries, attempt, feedback, log, calls).1;
      Rejected(check, agent(j, calls'[j]))
      && calls'[j + 1] == Some(feedbackOf(check(ReturnedResume(agent(j, calls'[j])).value).issues))
    decreases maxRetries - attempt
  {
    var calls' := calls + [feedback];
    var resume := ReturnedResume(agent(attempt, feedback));
    if resume.Some? {
      var v := check(resume.value);
      if CriticalIssues(v.issues) != [] && attempt < maxRetries {
        var log' := log + IssueEntries(attempt + 1, v.issues);
        var fb := Some(feedbackOf(v.issues));
        CallsBounded(agent, check, fix, feedbackOf, input, maxRetries, attempt + 1, fb, log', calls');
        var out := EnforceFrom(agent, check, fix, feedbackOf, input, maxRetries, attempt + 1, fb, log', calls').1;
        assert out[attempt] == feedback && out[attempt + 1] == fb by {
          assert out[..|calls'|] == calls';
        }
        if j > attempt {
          RetriedAt(agent, check, fix, feedbackOf, input, maxRetries, attempt + 1, fb, log', calls', j);
        }
      }
    }
  }

  /**
   * Every call but the last returned a resume with a critical issue, and the
   * next call was given the feedback for that resume's issues: the loop stops
   * at the first attempt whose resume passes.
   */
  lemma RetriedOnlyOnCritical(agent: Agent, check: Check, fix: String -> String, feedbackOf: seq<StandardsIssue> -> String,
                              input: String, maxRetries: nat)
    ensures var calls := Enforce(agent, check, fix, feedbackOf, input, maxRetries).1;
      forall j :: 0 <= j < |calls| - 1 ==>
        Rejected(check, agent(j, calls[j]))
        && calls[j + 1] == Some(feedbackOf(check(ReturnedResume(agent(j, calls[j])).value).issues))
  {
    var calls := Enforce(agent, check, fix, feedbackOf, input, maxRetries).1;
    forall j | 0 <= j < |calls| - 1
      ensures Rejected(check, agent(j, calls[j]))
      ensures calls[j + 1] == Some(feedbackOf(check(ReturnedResume(agent(j, calls[j])).value).issues))
    {
      RetriedAt(agent, check, fix, feedbackOf, input, maxRetries, 0, None, [], [], j);
    }
  }

  /** On the last call: how the loop ended, for the outcome it gives. */
  lemma {:induction false} LastCall(agent: Agent, check: Check, fix: String -> String, feedbackOf: seq<StandardsIssue> -> String, input: String, maxRetries: nat,
                                     attempt: nat, feedback: Option<String>, log: seq<LogEntry>, calls: seq<Option<String>>)
    requires attempt <= maxRetries && |calls| == attempt
    ensures var (r, calls') := EnforceFrom(agent, check, fix, feedbackOf, input, maxRetries, attempt, feedback, log, calls);
      |calls'| > 0 &&
      var n := |calls'| - 1;
      var last := ReturnedResume(agent(n, calls'[n]));
      && (r.NoResume? <==> last.None?)
      && (r.NoResume? ==> r.resume == input && r.error == NoResumeError)
      && (r.Enforced? ==>
            && r.retryCount == n
            && r.validation == check(last.value)
            && r.outputWords == r.validation.wordCount
            && r.inputWords == WordCount(input)
            && (CriticalIssues(r.validation.issues) == [] ==> r.resume == last.value)
            && (CriticalIssues(r.validation.issues) != [] ==> n == maxRetries && r.resume == fix(last.value)))
    decreases maxRetries - attempt
  {
    var resume := ReturnedResume(agent(attempt, feedback));
    if resume.Some? {
      var v := check(resume.value);
      if CriticalIssues(v.issues) != [] && attempt < maxRetries {
        var log' := log + IssueEntries(attempt + 1, v.issues);
        LastCall(agent, check, fix, feedbackOf, input, maxRetries, attempt + 1, Some(feedbackOf(v.issues)), log', calls + [feedback]);
      }
    }
  }

  /** The issues each call's resume drew, call by call, as log entries numbered from 1. */
  function AttemptLog(agent: Agent, check: Check, calls: seq<Option<String>>, n: nat): seq<LogEntry>
    requires n <= |calls|
  {
    if n == 0 then []
    else
      var r := ReturnedResume(agent(n - 1, calls[n - 1]));
      AttemptLog(agent, check, calls, n - 1) + (if r.Some? then IssueEntries(n, check(r.value).issues) else [])
  }

  /** Only the calls up to `n` matter to the log of the first `n` calls. */
  lemma {:induction false} AttemptLogPrefix(agent: Agent, check: Check, calls: seq<Option<String>>,
                                             more: seq<Option<String>>, n: nat)
    requires n <= |calls|
    ensures AttemptLog(agent, check, calls + more, n) == AttemptLog(agent, check, calls, n)
  {
    if n > 0 {
      AttemptLogPrefix(agent, check, calls, more, n - 1);
      assert (calls + more)[n - 1] == calls[n - 1];
    }
  }

  /** The log holds one entry per issue of every attempt, then the fallback's entry when it ran. */
  lemma {:induction false} LogOfAttempts(agent: Agent, check: Check, fix: String -> String, feedbackOf: seq<StandardsIssue> -> String, input: String, maxRetries: nat,
                                          attempt: nat, feedback: Option<String>, log: seq<LogEntry>, calls: seq<Option<String>>)
    requires attempt <= maxRetries && |calls| == attempt && log == AttemptLog(agent, check, calls, attempt)
    ensures var (r, calls') := EnforceFrom(agent, check, fix, feedbackOf, input, maxRetries, attempt, feedback, log, calls);
      r.Enforced? ==>
        r.log == AttemptLog(agent, check, calls', |calls'|)
          + (if CriticalIssues(r.validation.issues) == [] then [] else [FixesApplied(|calls'|)])
    decreases maxRetries - attempt
  {
    var calls' := calls + [feedback];
    AttemptLogPrefix(agent, check, calls, [feedback], attempt);
    var resume := ReturnedResume(agent(attempt, feedback));
    if resume.Some? {
      var v := check(resume.value);
      var log' := log + IssueEntries(attempt + 1, v.issues);
      assert log' == AttemptLog(agent, check, calls', attempt + 1);
      if CriticalIssues(v.issues) != [] && attempt < maxRetries {
        LogOfAttempts(agent, check, fix, feedbackOf, input, maxRetries, attempt + 1, Some(feedbackOf(v.issues)), log', calls');
      }
    }
  }

  /**
   * How `enforce_with_retry` ends: every call before the last was rejected,
   * `retry_count` is the number of calls less one, and the log holds every
   * attempt's issues.
   */
  lemma EnforceOutcome(agent: Agent, check: Check, fix: String -> String, feedbackOf: seq<StandardsIssue> -> String,
                       input: String, maxRetries: nat)
    ensures var (r, calls) := Enforce(agent, check, fix, feedbackOf, input, maxRetries);
      && (forall j :: 0 <= j < |calls| - 1 ==> Rejected(check, agent(j, calls[j])))
      && (r.Enforced? ==> r.retryCount == |calls| - 1)
      && (r.Enforced? ==>
            r.log == AttemptLog(agent, check, calls, |calls|)
              + (if CriticalIssues(r.validation.issues) == [] then [] else [FixesApplied(|calls|)]))
  {
    RetriedOnlyOnCritical(agent, check, fix, feedbackOf, input, maxRetries);
    LastCall(agent, check, fix, feedbackOf, input, maxRetries, 0, None, [], []);
    LogOfAttempts(agent, check, fix, feedbackOf, input, maxRetries, 0, None, [], []);
  }

  // ---------------------------------------------------------------------------
  // The enforcer
  // ---------------------------------------------------------------------------

  class StandardsEnforcer {
    const maxRetries: nat

    constructor (maxRetries: nat)
      ensures this.maxRetries == maxRetries
    {
      this.maxRetries := maxRetries;
    }

    /** `_apply_programmatic_fixes`: run the structure fixer and keep its resume. */
    method ApplyProgrammaticFixes(resume: String) returns (fixed: String)
      ensures fixed == FixedResume(resume)
    {
      var result := ResumeStructure.ValidateAndFix(resume, None);
      fixed := result.fixedResume;
    }

    /** `enforce_with_retry`, with the feedback it passed to each call of the agent. */
    method EnforceWithRetry(agent: Agent, input: String) returns (r: Enforcement, calls: seq<Option<String>>)
      ensures (r, calls) == Enforce(agent, StandardsOf, FixedResume, FeedbackOf, input, maxRetries)
    {
      r, calls := RetryLoop(agent, StandardsOf, FixedResume, FeedbackOf, input, maxRetries);
    }

    /**
     * The retry loop of `enforce_with_retry`, given the standards check, the programmatic
     * fixes and the feedback writer as functions.
     */
    static method RetryLoop(agent: Agent, check: Check, fix: String -> String, feedbackOf: seq<StandardsIssue> -> String,
                            input: String, maxRetries: nat) returns (r: Enforcement, calls: seq<Option<String>>)
      ensures (r, calls) == Enforce(agent, check, fix, feedbackOf, input, maxRetries)
    {
      var log: seq<LogEntry> := [];
      var retryCount := 0;
      var feedback: Option<String> := None;
      calls := [];
      var attempt := 0;
      while true
        invariant 0 <= attempt <= maxRetries && retryCount == attempt
        invariant Enforce(agent, check, fix, feedbackOf, input, maxRetries)
          == EnforceFrom(agent, check, fix, feedbackOf, input, maxRetries, attempt, feedback, log, calls)
        decreases maxRetries - attempt
      {
        var result := agent(attempt, feedback);
        var returned := ReturnedResume(result);
        if returned.None? {
          return NoResume(input, NoResumeError), calls + [feedback];
        }
        var resume := returned.value;
        var validation := check(resume);
        var wordCount := validation.wordCount;
        var log' := LogIssues(log, attempt + 1, validation.issues);
        var critical := CriticalIssues(validation.issues);
        if critical == [] || attempt >= maxRetries {
          if critical != [] {
            resume := fix(resume);
            log' := log' + [FixesApplied(attempt + 1)];
          }
          return Enforced(resume, validation, retryCount, log', WordCount(input), wordCount), calls + [feedback];
        }
        retryCount := retryCount + 1;
        var standardsFeedback := feedbackOf(validation.issues);
        calls := calls + [feedback];
        feedback := Some(standardsFeedback);
        log := log';
        attempt := attempt + 1;
      }
    }

    /** The `for issue in validation['issues']` loop: one log entry per issue, in order. */
    static method LogIssues(log: seq<LogEntry>, attempt: nat, issues: seq<StandardsIssue>) returns (log': seq<LogEntry>)
      ensures log' == log + IssueEntries(attempt, issues)
    {
      log' := log;
      for k := 0 to |issues|
        invariant log' == log + IssueEntries(attempt, issues[..k])
      {
        assert IssueEntries(attempt, issues[..k + 1]) == IssueEntries(attempt, issues[..k]) + [IssueLogged(attempt, issues[k])];
        AppendAssoc(log, IssueEntries(attempt, issues[..k]), [IssueLogged(attempt, issues[k])]);
        log' := log' + [IssueLogged(attempt, issues[k])];
      }
      TakeAll(issues);
    }
  }
}
