# Resume customizer: a verified model of its core

The system tailors a résumé to a job description by chaining LLM-backed
agents. Agent 1 scores the résumé against the job. Agent 2 rewrites it with
the suggestions the user kept, and agent 3 scores it again. Agent 4 checks
its formatting, agent 5 shortens it and agent 6 applies free-form edits.
Agent 7 writes a cover letter and agent 8 reviews it. A LangGraph workflow
drives agents 1 to 4 with human checkpoints. Around the model calls sits
deterministic code:
- a provider layer that sizes requests, retries on HTTP 503 Service
  Unavailable (section 15.6.4 of RFC 9110), repairs truncated JSON and cuts
  the answer out of reasoning text;
- line parsers for each agent's marked answer;
- a résumé structure validator and fixer, a standards check and a
  standards-enforcing retry loop;
- a settings registry of LLM providers;
- a debug log of LLM calls, markdown rewriting for display, and two
  Terraform pre-flight scripts.

This project models that code in Dafny and proves what it promises.

One module per source file:

| module | file(s) | form |
|---|---|---|
| `Text`, `Wrappers`, `Json` | — | shared: Python `str` operations on `seq<char>`, Option/Result, parsed JSON values |
| `ResponseExtraction`, `LlmClient` | utils/llm_client.py | functions; the retry loop, sizing and repair as methods |
| `GeminiClient` | utils/gemini_client.py | functions |
| `ResumeScorer` | agents/agent_1_scorer.py | functions and line-parsing methods |
| `ResumeModifier`, `ResumeRescorer`, `FormatValidator`, `ResumeOptimizer`, `FreeformEditor` | agents 2–6 | parsing methods proved against functions |
| `CoverLetterWriter`, `CoverLetterReviewer` | agents 7 and 8 | functions |
| `ResponseSchemas` | agents/schemas.py | records with subset-typed bounds |
| `WorkflowState`, `WorkflowNodes`, `WorkflowGraph`, `WorkflowOrchestrator` | workflow/*.py | state record, delta merge, transition table, orchestrator sequencing |
| `ResumeStructure`, `ResumeStructureFacts` | utils/resume_validator.py | loops over classified lines, proved against recursive functions |
| `ResumeStandards`, `StandardsEnforcement` | utils/resume_standards.py, utils/standards_enforcer.py | check loops, and a class for the enforcer |
| `AppSettings` | utils/settings.py | class `SettingsStore` whose registry methods replace the stored settings |
| `Debug` | utils/debug.py | class `LLMInteractionCapture` |
| `MarkdownRendering` | utils/markdown_renderer.py | the two `re.sub` passes as a scanner |
| `SecretVars`, `TerraformChecks` | terraform/*.py | functions; class `TerraformValidator` |

A few behaviours of the code as written are worth knowing. The model keeps
each of them and proves it:
- The standards check runs the job metadata pattern with `finditer` over
  the whole résumé and reports every match as a CRITICAL missing backslash.
  A match always ends in a closing `*`, so a well-formed line with its
  backslash is reported too (`ResumeStandards.WellFormedLineFails`,
  `ResumeStandards.StandardsValidIff`), and the dates' `[^*]+` lets a match
  run over a line break (`ResumeStandards.MatchAcrossLines`). The enforcer
  therefore retries whenever the pattern matches anywhere in the résumé.
- The workflow graph keeps only the keys it declares in its state. So the
  optimizer's keys are dropped, and validation and export read the modified
  résumé.
- The rescoring clamp is 1..10, while the schema bound on scores is 1..100.

## Model

| member | source | states |
|---|---|---|
| WorkflowState.CreateInitialState | workflow/state.py:59-104 | the resume and URL are kept, a missing description becomes empty, the stage is `fetch_job` exactly when the URL is non-empty and `scoring` otherwise, nothing is approved, no error, no messages, no agent output |
| WorkflowState.Merge | workflow/state.py:14-56 | a node's messages are appended after the state's, a key the node returns replaces the state's value and a key it omits keeps it; keys outside the declared state (the optimizer's) are dropped |
| WorkflowState.MergeOnlyControl | workflow/state.py:52-56 | a delta that sets only the stage, the error and messages leaves every other key as it was |
| WorkflowState.OptimizationDropped | workflow/state.py:14-56 | the optimizer's result keys, which the declared state has no field for, never change the merged state |
| WorkflowState.MergeAll | workflow/state.py:56 | merging deltas in turn keeps the earlier messages as a prefix, adds exactly the deltas' messages, and never clears an error |
| WorkflowNodes.FetchJobNode | workflow/nodes.py:13-42 | the scraper is called only when a URL is set and the description is empty; success stores the description and moves to scoring, failure sets the error stage; otherwise the node only moves to scoring; one message in every case |
| WorkflowNodes.ResumeToValidate | workflow/nodes.py:196-197 | validation takes the optimized resume when it is non-empty and the modified resume otherwise |
| WorkflowNodes.ResumeToExport | workflow/nodes.py:233-234 | export takes the freeform resume, else the optimized one, else the modified one, skipping empty values |
| WorkflowNodes.HumanFeedbackNode | workflow/nodes.py:256-271 | the feedback node returns one message and no other key |
| WorkflowNodes.NodeOutcome | workflow/nodes.py:13-253 | every node adds exactly one message; when its agent succeeds it sets its own next stage and no error; when the agent raises it sets the error stage, the node's prefix followed by the exception text as the error, an `Error:` message, and none of its outputs |
| WorkflowNodes.DeclaredStateUsesModified | workflow/nodes.py:184-253 | without the optimizer's keys in the state, validation and export both read the modified resume |
| WorkflowNodes.OptimizationDropped | workflow/nodes.py:145-181 | a successful optimization changes only the stage and the messages of the state it is merged into |
| WorkflowNodes.FeedbackOnlyMessages | workflow/nodes.py:256-271 | merging the feedback node's result only appends its message |
| WorkflowGraph.Entry | workflow/graph.py:88-91 | the analysis graph enters at `fetch_job` when the URL is non-empty and at `scoring` otherwise; the other graphs enter at their first node; the entry is a registered node |
| WorkflowGraph.Next | workflow/graph.py:93-141 | the edges of the three graphs lead only to registered nodes and strictly down a fixed ranking, so every run ends |
| WorkflowGraph.StepShapeHolds | workflow/nodes.py:13-253 | every node adds one message after the earlier ones, keeps an error once set, sets only non-empty errors together with the error stage, leaves the input and approval alone, ends in its success stage or the error stage, and only the export node touches the PDF |
| WorkflowGraph.RunVisits | workflow/graph.py:59-143 | a run visits the nodes along the edges from its start until END, whatever the nodes return |
| WorkflowGraph.RunShape | workflow/graph.py:59-143 | over a whole run: one message per visited node after the earlier ones, an error once set stays set, errors stay non-empty, the final stage is the last node's success stage or the error stage (the success stage when no error is set), and the PDF is unchanged unless export ran |
| WorkflowGraph.Paths | workflow/graph.py:89-141 | the node sequence from each entry point: fetch then scoring, scoring alone, modify-rescoring-optimization-validation, export alone |
| WorkflowGraph.InvokeVisits | workflow/graph.py:81-143 | the analysis run visits fetch and scoring (or scoring alone) and never its registered modify and rescoring nodes; the modification run visits its four nodes in order; the export run visits export |
| WorkflowGraph.FetchFailureStillScores | workflow/graph.py:93-98 | a failed fetch is followed by scoring anyway; the error stays set, and when scoring succeeds the stage reads awaiting selection while the fetch error is still there |
| WorkflowGraph.CleanRun | workflow/graph.py:59-143 | a run that ends without an error ends in awaiting selection, awaiting approval or completed, by graph; the analysis and modification runs never set the PDF |
| WorkflowGraph.ExportProducesPdf | workflow/graph.py:129-143 | an export run that ends without an error holds the PDF and is completed |
| WorkflowGraph.AnySelectedExactly | workflow/graph.py:31-32 | the any-selected test holds exactly when some suggestion is selected |
| WorkflowGraph.ShouldContinueToModification | workflow/graph.py:17-35 | the route is `modify` exactly when there is no error and some suggestion is selected; with no error and no suggestions yet it is an error (iterating over None) |
| WorkflowGraph.ShouldContinueToExport | workflow/graph.py:38-56 | the route is never `rescoring`, and is `export` exactly when there is no error and the resume is approved |
| WorkflowOrchestrator.StartAnalysisOutcome | workflow/orchestrator.py:25-52 | analysing a given description runs scoring alone: one message, the resume kept, not approved, no PDF, awaiting selection or, when scoring failed, the error stage with a non-empty error |
| WorkflowOrchestrator.ReselectElements | workflow/orchestrator.py:100-101 | re-selecting keeps the suggestions' number and order, sets each one's flag to whether its id is listed, and changes nothing else in it |
| WorkflowOrchestrator.SelectionExactly | workflow/orchestrator.py:84-103 | updating the selection changes only the suggestions' flags, each to whether its id is listed, and nothing else in the state |
| WorkflowOrchestrator.UpdateSuggestions | workflow/orchestrator.py:84-103 | the loop over the suggestions yields that selection, and leaves a state without suggestions as it was |
| WorkflowOrchestrator.ApproveResume | workflow/orchestrator.py:105-116 | the state is approved and otherwise unchanged |
| WorkflowOrchestrator.ApprovalRoutesToExport | workflow/orchestrator.py:105-116 | after approval the export route is taken exactly when no error is set; an unapproved state never routes to export |
| WorkflowOrchestrator.GetWorkflowStatus | workflow/orchestrator.py:118-138 | the status reports an error exactly when the error is non-empty, a ready PDF exactly when non-empty PDF bytes exist, the message count, the approval and the error text, and the scores exactly when they were computed |
| WorkflowOrchestrator.InitialStatus | workflow/orchestrator.py:118-138 | a fresh state reports no error, no PDF, no approval, no messages and no scores |
| WorkflowOrchestrator.AllIds | workflow/orchestrator.py:171 | the id list has one entry per suggestion, in order |
| WorkflowOrchestrator.SelectAllByDefault | workflow/orchestrator.py:166-172 | with no ids given, every suggestion is selected afterwards |
| WorkflowOrchestrator.RunFullWorkflow | workflow/orchestrator.py:140-185 | the phase-by-phase run with its early returns computes the full workflow |
| WorkflowOrchestrator.ModificationPhase | workflow/orchestrator.py:54-67 | the modification phase adds four messages, leaves approval and the PDF alone, and ends awaiting approval when no error is set |
| WorkflowOrchestrator.ExportPhase | workflow/orchestrator.py:69-82 | approving and exporting adds one message and, when no error is set, completes with the PDF |
| WorkflowOrchestrator.FullWorkflowOutcome | workflow/orchestrator.py:140-185 | the whole run ends with 1, 5 or 6 messages (6 exactly when approved); a PDF only with automatic approval; with no error left, awaiting approval, or completed with the PDF when approval was automatic |
| LlmClient.MarkerScanCannotMoveStart | utils/llm_client.py:94-112 | a `{` found after any marker lies at or after the first `{` of the text, so the marker scan never moves the JSON start |
| LlmClient.ExtractFromReasoningOutput | utils/llm_client.py:56-163 | the extraction with its marker loop computes the selection rules, and its result is a contiguous piece of the answer |
| LlmClient.CutJson | utils/llm_client.py:114-163 | the brace cut, the regex fallback and the reasoning-only diagnosis compute the selection rules |
| LlmClient.FourFifths | utils/llm_client.py:410-420 | `int(x * 0.8)` truncates toward zero: between 0 and `x` whatever the sign of `x` |
| LlmClient.SizeMaxTokens | utils/llm_client.py:399-421 | an auto-sized `max_tokens` lies in 512..16384 and is four fifths of the room when that is in range; a caller's value that fits is kept; one that does not becomes at least 512, which still exceeds a room under 512 |
| LlmClient.Repeat | utils/llm_client.py:541 | `s * n` has `n` times the length of `s` |
| LlmClient.RStripKeepsCount | utils/llm_client.py:532-538 | stripping trailing whitespace keeps every brace and bracket count |
| LlmClient.RepairBalancesBraces | utils/llm_client.py:524-543 | a repaired answer has as many `}` as `{` whenever it had no surplus `}`; its `{` and `[` counts never change; an answer not cut at the limit or already ending in `}` is returned as is |
| LlmClient.Backoff | utils/llm_client.py:452-460 | the wait before retry `k + 1` is the initial delay doubled `k` times |
| LlmClient.RequestWithRetry | utils/llm_client.py:441-500 | between one and `max_retries` calls; only 503 answers are retried, each retry after the doubled delay and never after the last attempt; a final 503 gives up after exactly `max_retries` calls; no attempt at all when `max_retries` is not positive |
| LlmClient.RaisedAsWritten | utils/llm_client.py:480-495 | as written, a connection error surfaces as a NameError on `base_url` |
| LlmClient.Raised | utils/llm_client.py:446-500 | no error exactly when an answer came back; a connection error is re-raised with its own message and an API error with its status |
| LlmClient.ConnectionErrorMasked | utils/llm_client.py:486 | as written, the connection error's own message never reaches the caller |
| LlmClient.GenerateWithSystemPrompt | utils/llm_client.py:377-580 | the request carries both prompts, the sized `max_tokens` and the response format when given; the call count and waits follow the retry loop; every call before the last was a 503; the waits are the initial delay doubled once per retry; a final 503 means all `max_retries` calls were made; a completed last call gives the extracted, repaired answer, and only then is there an answer; a failed request raises the error of the way the loop stopped (`StopOf`), and it is the error reports the error of the intended handler (`Raised`), not the NameError of the handler as written |
| LlmClient.GetLlmClient | utils/llm_client.py:673-696 | the provider name is matched case-insensitively; each client is created exactly when its API key (and for the custom client its base URL) is set; an explicit model name wins |
| LlmClient.KeepNonBlank | utils/llm_client.py:734 | the kept names are no more than the parts and none is empty |
| LlmClient.ModelListRoundTrip | utils/llm_client.py:732-748 | plain model names written comma-separated parse back to the same list |
| LlmClient.Conclude | utils/llm_client.py:496-560 | a failed loop raises its error; an answer is repaired if truncated, then extracted |
| LlmClient.GetAvailableModels | utils/llm_client.py:699-756 | the three providers always have a list; a non-empty environment list wins over the defaults; the custom provider takes `CUSTOM_MODELS` when set, otherwise `[CUSTOM_LLM_MODEL]` when that is set, otherwise `["custom-model"]` |
| ResponseExtraction.LastPart | utils/llm_client.py:78-79 | `s.split(sep)[-1]` is a suffix of `s` free of `sep` |
| ResponseExtraction.BraceSpan | utils/llm_client.py:114-118 | the span runs from a `{` to a `}` and is a contiguous piece of the text |
| ResponseExtraction.RegexMatchesBraceSpan | utils/llm_client.py:138-140 | the regex `\{[\s\S]*\}` finds exactly the span of the direct first-`{`/last-`}` cut |
| ResponseExtraction.ExtractCases | utils/llm_client.py:76-163 | extraction yields the stripped text after the last `</think>`, the unchanged input, or the direct brace span; the regex fallback never contributes |
| ResponseExtraction.ExtractIsInfix | utils/llm_client.py:76-163 | whatever rule applies, the extracted text is a contiguous piece of the input |
| ResponseExtraction.SecondPassKeepsJson | utils/gemini_client.py:84-85 | text that starts as JSON and has no think block passes a second extraction unchanged |
| ResponseExtraction.ExtractTwice | utils/gemini_client.py:56-85 | extracting twice changes nothing unless the first pass removed a think block |
| ResponseExtraction.SpanPassesAgain | utils/llm_client.py:114-118 | a brace span of text without a think block starts as JSON and has no think block |
| ResponseSchemas.Str | agents/schemas.py:8-10 | a string field is read exactly when the member is present and a JSON string |
| ResponseSchemas.Int | agents/schemas.py:36-45 | an integer field is read exactly when the member is present and a JSON integer |
| ResponseSchemas.ScoreOf | agents/schemas.py:15-72 | a score is read exactly when it is an integer from 1 to 100, and then as that integer |
| ResponseSchemas.ScoreField | agents/schemas.py:15-72 | a score member is read exactly when present and within 1..100 |
| ResponseSchemas.Strings | agents/schemas.py:47-75 | a list of strings is read exactly when every item is a string, item by item |
| ResponseSchemas.Records | agents/schemas.py:17-74 | a list of records is read exactly when every item is an object its schema accepts, item by item |
| ResponseSchemas.ReadSuggestion | agents/schemas.py:6-10 | accepted exactly when `category`, `text` and `suggested_text` are strings, and read as those three |
| ResponseSchemas.ReadResumeAnalysis | agents/schemas.py:13-17 | an accepted analysis carries the score member, within 1..100 |
| ResponseSchemas.ReadResumeScore | agents/schemas.py:20-23 | accepted exactly when the score is within 1..100 and the analysis is a string |
| ResponseSchemas.ReadOptimizationSuggestion | agents/schemas.py:26-30 | accepted exactly when `category`, `description` and `impact` are strings |
| ResponseSchemas.ReadOptimizationAnalysis | agents/schemas.py:33-37 | an accepted analysis carries the word-count member as given |
| ResponseSchemas.ReadOptimizedResume | agents/schemas.py:40-47 | the word counts are read as given; nothing ties them to each other |
| ResponseSchemas.DropExplanation | agents/schemas.py:59 | an absent `score_drop_explanation` reads as the empty text; a present one must be a string |
| ResponseSchemas.ReadRescore | agents/schemas.py:51-59 | an accepted rescore carries the new score member, within 1..100, and an empty drop explanation when it is absent |
| ResponseSchemas.ReadValidationIssue | agents/schemas.py:63-67 | accepted exactly when `severity`, `category` and `description` are strings |
| ResponseSchemas.ReadValidation | agents/schemas.py:70-76 | an accepted validation carries the score member, within 1..100, and `is_valid` as given |
| ResponseSchemas.RescoreClampNarrowerThanSchema | agents/schemas.py:53 | the rescorer's clamp always satisfies the schema's 1..100 bound for a non-negative original, but replaces every schema-valid score above 10 |
| ResponseSchemas.ValidationReadBack | agents/schemas.py:70-76 | a validation record written out as its JSON members is read back as it was |
| ResponseSchemas.ValidityRuleNotEnforced | agents/schemas.py:73 | the schema accepts `is_valid` true with score 40 and a CRITICAL issue: the rule in the field's description is not checked |
| Debug.InteractionOf | utils/debug.py:61-73 | the combined prompt length is the sum of the two prompt lengths; a missing response has length 0, a present one its own length |
| Debug.Truncate | utils/debug.py:119-121 | Python slicing `s[:n]`: a prefix of `s`, of length `n` capped at `|s|` for `n >= 0`, and all but the last `-n` characters for negative `n` |
| Debug.FormatForDisplay | utils/debug.py:102-125 | fails exactly when the recorded response is None; otherwise the provider upper-cased, the model as recorded and the two lengths as recorded |
| Debug.DisplayTruncates | utils/debug.py:119-121 | each displayed text is a prefix of the recorded one, at most `max_length` long, and all of it when it fits |
| Debug.LLMInteractionCapture.constructor | utils/debug.py:19-22 | a new capture is disabled and empty |
| Debug.LLMInteractionCapture.Enable | utils/debug.py:24-27 | capture is switched on and the records are kept |
| Debug.LLMInteractionCapture.Disable | utils/debug.py:29-32 | capture is switched off and the records are kept |
| Debug.LLMInteractionCapture.CaptureLlmCall | utils/debug.py:34-75 | while enabled exactly one record is appended and becomes the last interaction; while disabled nothing changes |
| Debug.LLMInteractionCapture.LastInteraction | utils/debug.py:90-92 | None exactly when nothing was captured, else the newest record |
| Debug.LLMInteractionCapture.Clear | utils/debug.py:98-100 | no records remain, the flag is kept, and there is no last interaction |
| GeminiClient.BuildConfig | utils/gemini_client.py:41-46 | a token cap is set exactly when `max_tokens` is truthy, and then to that value |
| GeminiClient.SystemPromptRequest | utils/gemini_client.py:62-87 | the two prompts travel as one, joined by a blank line, with no token cap; errors come back as `Error generating content: …`; the answer is a piece of the model's text, and the second extraction pass changes nothing unless the text had a think block |
| ResumeScorer.SectionsPartition | agents/agent_1_scorer.py:72-90 | every non-blank line of the description is filed under exactly one section and blank lines under none |
| ResumeScorer.Pack | agents/agent_1_scorer.py:92-108 | the budget loop keeps at most one piece per section |
| ResumeScorer.PackWithinBudget | agents/agent_1_scorer.py:92-108 | the section characters kept never exceed the budget |
| ResumeScorer.PackShape | agents/agent_1_scorer.py:98-108 | no kept piece is empty and only the last one can be the cut one |
| ResumeScorer.PackFits | agents/agent_1_scorer.py:98-103 | when all sections fit, every non-empty section is kept whole, in priority order |
| ResumeScorer.RenderAll | agents/agent_1_scorer.py:102-106 | one text per piece, a cut piece followed by the truncation marker |
| ResumeScorer.PriorityContents | agents/agent_1_scorer.py:92-99 | one section text per priority slot: requirements, skills, qualifications, responsibilities, other |
| ResumeScorer.TruncateJobDescription | agents/agent_1_scorer.py:47-112 | a description of at most 30000 characters is returned unchanged; a longer one becomes the packed sections joined by newlines |
| ResumeScorer.FileSections | agents/agent_1_scorer.py:72-90 | the first loop files each non-blank line under the section of the last header seen, "other" before any |
| ResumeScorer.SpendBudget | agents/agent_1_scorer.py:92-108 | the second loop produces exactly the rendered pack of the section texts within 30000 characters |
| ResumeScorer.TruncationWithinBudget | agents/agent_1_scorer.py:92-108 | the sections kept from a long description fit in 30000 characters |
| ResumeScorer.UsesResponseFormat | agents/agent_1_scorer.py:243-262 | structured output is requested exactly when the client accepts the parameter, the format was built and the model name contains none of `r1`, `o1`, `reasoning` |
| ResumeScorer.ReasoningModelNeverGetsFormat | agents/agent_1_scorer.py:250-260 | a reasoning model never receives a response format |
| ResumeScorer.FenceRemoved | agents/agent_1_scorer.py:309-318 | an answer wrapped in a Markdown code fence loses the opening fence line and the closing fence |
| ResumeScorer.MakeSuggestion | agents/agent_1_scorer.py:329-335 | building a suggestion from entry `k` raises exactly when the entry is not an object; the built one has id `k`, starts selected, keeps `text` whatever its JSON type (default `""`), keeps a present `category` and `suggested_text` whatever their type, and defaults `category` to `"General"` and `suggested_text` to the text |
| ResumeScorer.SuggestionsFrom | agents/agent_1_scorer.py:328-335 | the list builds exactly when every entry does, and then holds entry by entry the suggestion built from it |
| ResumeScorer.SuggestionsOf | agents/agent_1_scorer.py:328-335 | the loop raises exactly when some entry is not an object; otherwise one suggestion per entry, numbered from 0 in input order, all selected |
| ResumeScorer.FirstInvalidEntry | agents/agent_1_scorer.py:328-335 | the first entry that is not an object decides the error raised |
| ResumeScorer.BuildSuggestions | agents/agent_1_scorer.py:327-335 | the enumeration loop computes the suggestion list |
| ResumeScorer.ScoreOf | agents/agent_1_scorer.py:322-341 | the score used lies in 1..100; an integer in range is kept; a missing, null or out-of-range integer score becomes 50; a string, array or object score raises on the comparison |
| ResumeScorer.Interpret | agents/agent_1_scorer.py:322-347 | a non-object raises; an object is accepted exactly when its `suggestions` iterate, every entry is an object and the score compares; the result has a score in 1..100, `analysis` as given whatever its type (default text otherwise) and suggestions numbered from 0, all selected |
| ResumeScorer.ParseResponse | agents/agent_1_scorer.py:293-392 | whatever parse succeeds, the score lies in 1..100 |
| ResumeScorer.ParseResponseMethod | agents/agent_1_scorer.py:293-392 | the parser with its loops computes the specification function |
| ResumeScorer.UnparseableGivesFailure | agents/agent_1_scorer.py:349-392 | when neither the cleaned answer nor its outermost brace span parses, the fixed failure result with score 50 comes back |
| ResumeScorer.AnalyzeAndScore | agents/agent_1_scorer.py:240-291 | a client or parse error is re-raised prefixed with `Error in resume analysis: `; a parsed analysis that is null, a boolean or an integer makes the debug line's `len()` raise, re-raised with the same prefix; otherwise the parsed result, with a score in 1..100 and an analysis that has a length |
| ResumeScorer.LenlessType | agents/agent_1_scorer.py:286 | `len()` fails exactly on the JSON values that are not a string, an array or an object, naming `NoneType`, `bool` or `int` |
| ResumeScorer.NullAnalysisRaises | agents/agent_1_scorer.py:283-291 | a parsed answer with a null analysis makes `len()` raise on `NoneType` |
| ResumeScorer.ScoreLineRoundTrip | agents/agent_1_scorer.py:456-466 | the line `SCORE: n` reads back as `n` |
| ResumeScorer.AnalysisLinesAreText | agents/agent_1_scorer.py:452-473 | every analysis line kept is stripped, non-empty and neither marker line |
| ResumeScorer.NoScoreLineNoScore | agents/agent_1_scorer.py:449-476 | without a `SCORE:` line the score stays unset |
| ResumeScorer.LastScoreLineWins | agents/agent_1_scorer.py:456-467 | a later `SCORE:` line overrides every earlier one |
| ResumeScorer.ClampScore | agents/agent_1_scorer.py:475-476 | the reported score lies in 1..100 and a score already in range is kept |
| ResumeScorer.ReadLine | agents/agent_1_scorer.py:455-473 | one iteration of the line loop |
| ResumeScorer.ScanScoreLines | agents/agent_1_scorer.py:448-473 | the line loop yields the last score read and the analysis lines |
| ResumeScorer.ScoreOnly | agents/agent_1_scorer.py:440-484 | a client error is re-raised prefixed with `Error in resume scoring: `; otherwise the clamped score and the analysis lines joined by newlines |
| ResumeScorer.ScoreOnlyHeader | agents/agent_1_scorer.py:433-437 | the requested header (score line, blank line, analysis marker) sets the score and opens the analysis |
| ResumeScorer.ScoreOnlyWellFormed | agents/agent_1_scorer.py:433-473 | a well-formed answer yields its own score and its analysis line |
| ResumeModifier.SelectedConcat | agents/agent_2_modifier.py:30-33 | the selection is a filter: it distributes over concatenation, so order and multiplicity are those of the input |
| ResumeModifier.SelectedSingle | agents/agent_2_modifier.py:30-33 | one suggestion is kept exactly when it is selected |
| ResumeModifier.SelectedMultiset | agents/agent_2_modifier.py:30-33 | each selected suggestion is kept as many times as it occurs, an unselected one never |
| ResumeModifier.Selected | agents/agent_2_modifier.py:30-33 | the selection is no longer than the input and empty exactly when no suggestion is selected |
| ResumeModifier.SelectedMembers | agents/agent_2_modifier.py:30-33 | the kept suggestions are exactly the selected members of the input |
| ResumeModifier.SelectedSnoc | agents/agent_2_modifier.py:30-33 | appending a suggestion appends it to the selection exactly when it is selected |
| ResumeModifier.Field | agents/agent_2_modifier.py:67-70 | an f-string field shows a string member as itself and any other value as Python's `str` does |
| ResumeModifier.SuggestionsText | agents/agent_2_modifier.py:67-70 | a single kept suggestion gives the one line `- [category] text` |
| ResumeModifier.CleanResume | agents/agent_2_modifier.py:107-126 | text without a leading fence is only stripped |
| ResumeModifier.FencedResumeCleaned | agents/agent_2_modifier.py:118-126 | a fenced answer comes back as its stripped body |
| ResumeModifier.CleanBetweenFences | agents/agent_2_modifier.py:118-126 | text whose lines are an opening fence line, inner lines and a closing fence becomes the stripped inner lines |
| ResumeModifier.UnfencedResumeKept | agents/agent_5_optimizer.py:235-246 | resume lines gathered by a line parser and not fenced are returned as their stripped join |
| ResumeModifier.ModifyResume | agents/agent_2_modifier.py:13-105 | with nothing selected the model is not called and the original comes back; otherwise the model gets exactly the selected suggestions' lines, a client error is re-raised prefixed with `Error modifying resume: `, and the answer is cleaned |
| ResumeRescorer.FinalScore | agents/agent_3_rescorer.py:164-166 | the new score is at most 10, at least 1 for a non-negative original, and a parsed score in 1..10 is kept |
| ResumeRescorer.InnerGuardsNeverReject | agents/agent_3_rescorer.py:150-163 | the inner marker tests of the comparison and reasoning branches never reject a line the outer tests let through |
| ResumeRescorer.ParseRescore | agents/agent_3_rescorer.py:92-180 | the loop yields the last `NEW_SCORE:` value clamped, the improvement as new minus original, the comparison and reasoning lines (or their defaults), the dash lines of improvements and concerns, and the last recommendation's verdict |
| ResumeRescorer.RescoreResume | agents/agent_3_rescorer.py:80-90 | a client error is re-raised prefixed with `Error rescoring resume: `; an answer gives exactly what the parser reads from it (`ReadsAs`), so the new score is at most 10 and the improvement is the difference from the original |
| ResumeRescorer.NewScoreLineRoundTrip | agents/agent_3_rescorer.py:117-166 | the line `NEW_SCORE: n` with `n` in 1..10 gives exactly `n` |
| FormatValidator.IssuePattern | agents/agent_4_validator.py:150-156 | a match has a non-empty category free of `]` and a non-empty rest |
| FormatValidator.ParseIssue | agents/agent_4_validator.py:146-162 | a line that does not match the pattern becomes an INFO issue of category "General" with the whole text as its description |
| FormatValidator.SummaryHasText | agents/agent_4_validator.py:169-170 | a non-empty summary accumulator starts with a non-space character |
| FormatValidator.CountsPartition | agents/agent_4_validator.py:188-190 | the critical, warning and info counts add up to the number of issues |
| FormatValidator.NoCriticalCount | agents/agent_4_validator.py:179-188 | the critical count is zero exactly when no issue is critical |
| FormatValidator.Clamp | agents/agent_4_validator.py:172-176 | the score ends in 1..100, and a score already in range is kept |
| FormatValidator.ReadLine | agents/agent_4_validator.py:110-170 | one pass of the loop: a marker switches the part and sets the score or validity; dash lines add issues or recommendations, except `NONE`; summary lines are appended with a space |
| FormatValidator.ParseValidation | agents/agent_4_validator.py:91-191 | the report holds the clamped last score (80 by default), the issues, the recommendations, a non-empty summary, validity exactly when the last `IS_VALID:` says yes, the score is at least 80 and no issue is critical, and counts that add up to the issues |
| FormatValidator.Conclude | agents/agent_4_validator.py:172-191 | the clamp, the validity rule, the summary default `Validation completed.` and the three severity counts |
| FormatValidator.ValidateResume | agents/agent_4_validator.py:79-89 | a client error is re-raised prefixed with `Validation failed: `; an answer gives exactly the parser's report on it (`Reports`, with counts per severity); a valid report has a score of at least 80 and no critical issue |
| FormatValidator.IssueRoundTrip | agents/agent_4_validator.py:150-162 | the line `[SEVERITY] [category] description` reads back as that severity and the stripped category and description |
| ResumeOptimizer.MarkersNotCopied | agents/agent_5_optimizer.py:205-226 | no marker line is ever copied into the optimized resume |
| ResumeOptimizer.BeforeMarkersDiscarded | agents/agent_5_optimizer.py:205-233 | lines before the first marker line are discarded |
| ResumeOptimizer.ResumeKeptVerbatim | agents/agent_5_optimizer.py:209-225 | the lines after `OPTIMIZED_RESUME:` up to the next marker line are kept unstripped and in order |
| ResumeOptimizer.ChangesRun | agents/agent_5_optimizer.py:230-233 | in the changes part each dash line adds one entry, its text after the dash stripped, and other lines add none |
| ResumeOptimizer.ChangesCollected | agents/agent_5_optimizer.py:217-233 | after `CHANGES_MADE:` the changes gain exactly the dash entries up to the next marker line, and the resume and summary are untouched |
| ResumeOptimizer.ChangesOrDefault | agents/agent_5_optimizer.py:257 | the change list is never empty, and a non-empty parsed list is kept |
| ResumeOptimizer.Finish | agents/agent_5_optimizer.py:235-258 | the word counts describe the original and the optimized text, and the words removed are their difference |
| ResumeOptimizer.ReadLine | agents/agent_5_optimizer.py:206-233 | one iteration of the parser loop |
| ResumeOptimizer.ParseOptimization | agents/agent_5_optimizer.py:188-258 | the loop computes the record built from the parser's final state |
| ResumeOptimizer.AutoFixes | agents/agent_5_optimizer.py:171-173 | one `[Auto-fix] ` entry per fix applied, in order |
| ResumeOptimizer.AfterValidation | agents/agent_5_optimizer.py:170-181 | the fixed resume replaces the optimized one, the fixes are appended to the changes, and the after-count and words removed are taken again |
| ResumeOptimizer.OptimizeResume | agents/agent_5_optimizer.py:144-186 | a client error becomes `Optimization failed: …`; otherwise the parsed answer validated against the original resume, with consistent word counts |
| FreeformEditor.MarkersNotCopied | agents/agent_6_freeform.py:95-110 | no marker line is ever copied into the edited resume |
| FreeformEditor.BeforeMarkersDiscarded | agents/agent_6_freeform.py:95-114 | lines before the first marker line are discarded |
| FreeformEditor.ResumeRun | agents/agent_6_freeform.py:107-109 | in the resume part every non-marker line is kept verbatim and in order |
| FreeformEditor.ResumeKeptVerbatim | agents/agent_6_freeform.py:98-110 | the lines after `MODIFIED_RESUME:` up to the next marker line are kept unstripped and in order, and the summary is untouched |
| FreeformEditor.SummaryLinesTrimmed | agents/agent_6_freeform.py:111-113 | every summary entry is non-empty and stripped |
| FreeformEditor.SummaryRun | agents/agent_6_freeform.py:111-113 | in the summary part every non-blank line adds its stripped text and one space |
| FreeformEditor.SummaryCollected | agents/agent_6_freeform.py:102-113 | after `CHANGES_SUMMARY:` the summary gains exactly the stripped non-blank lines up to the next marker, and the resume is untouched |
| FreeformEditor.SpacedJoin | agents/agent_6_freeform.py:113-129 | the accumulator is empty exactly when there are no entries, else their space-separated join plus a trailing space |
| FreeformEditor.SummaryText | agents/agent_6_freeform.py:129 | the reported summary is the entries joined by single spaces, or `Changes applied as requested.` when there are none |
| FreeformEditor.Finish | agents/agent_6_freeform.py:115-130 | an empty summary accumulator gives the default summary |
| FreeformEditor.WellFormedAnswer | agents/agent_6_freeform.py:79-130 | a well-formed answer gives its resume lines joined, stripped and unfenced, and its summary lines stripped and joined by spaces, or the default |
| FreeformEditor.ReadLine | agents/agent_6_freeform.py:96-113 | one iteration of the parser loop |
| FreeformEditor.ParseEdit | agents/agent_6_freeform.py:79-130 | the loop computes the record built from the parser's final state |
| FreeformEditor.ApplyChanges | agents/agent_6_freeform.py:13-77 | a client error becomes `Freeform editing failed: …`; otherwise the parsed answer |
| CoverLetterWriter.SplitOnce | agents/agent_7_cover_letter.py:123-127 | no split exactly when the separator is absent; otherwise the text is the part before, the separator and the part after, the separator occurring first right after the part before |
| CoverLetterWriter.SplitOnceOf | agents/agent_7_cover_letter.py:123-127 | splitting `a + sep + b` where `sep` first occurs after `a` gives back `a` and `b` |
| CoverLetterWriter.Sections | agents/agent_7_cover_letter.py:122-136 | without the first marker the whole stripped answer is the letter and the note is the default |
| CoverLetterWriter.SectionsOf | agents/agent_7_cover_letter.py:122-130 | an answer laid out as asked is read back into its stripped letter and note |
| CoverLetterWriter.NoSecondMarker | agents/agent_7_cover_letter.py:131-132 | without the second marker after the first, the stripped rest is the letter and the note is the default |
| CoverLetterWriter.GenerateCoverLetter | agents/agent_7_cover_letter.py:107-153 | client errors propagate; the letter is never empty, an empty answer giving `Error: No content generated` |
| CoverLetterWriter.GeneratedFromMarkers | agents/agent_7_cover_letter.py:122-130 | an answer `…COVER_LETTER:` letter `SUMMARY:` summary gives the stripped letter and summary |
| CoverLetterWriter.GeneratedWithoutMarker | agents/agent_7_cover_letter.py:133-136 | an answer without the marker is the stripped letter with the default summary |
| CoverLetterWriter.ReviseCoverLetter | agents/agent_7_cover_letter.py:254-289 | client errors propagate; an empty revision keeps the original letter with the preserved-letter note, so a non-empty original never yields an empty letter |
| CoverLetterWriter.RevisedFromMarkers | agents/agent_7_cover_letter.py:262-270 | an answer `…REVISED_COVER_LETTER:` letter `REVISION_NOTES:` notes gives the stripped letter and notes |
| CoverLetterWriter.IssueEntries | agents/agent_7_cover_letter.py:298-305 | one entry per issue |
| CoverLetterWriter.FormattedIssues | agents/agent_7_cover_letter.py:292-307 | no issues gives `None` |
| CoverLetterWriter.EntryNumbered | agents/agent_7_cover_letter.py:298-301 | the number in front of the `k`-th entry reads back as `k + 1` |
| CoverLetterWriter.FormatIssues | agents/agent_7_cover_letter.py:292-307 | the loop computes the numbered entries joined by newlines |
| CoverLetterWriter.UserFeedbackSection | agents/agent_7_cover_letter.py:208-215 | the feedback section is present exactly when feedback is given and not blank, and then contains it as given |
| CoverLetterReviewer.ParseTarget | agents/agent_8_reviewer.py:115-120 | the text parsed is the first-`{`-to-last-`}` span when there is one, else the whole cleaned answer |
| CoverLetterReviewer.ParseOrFallback | agents/agent_8_reviewer.py:111-137 | client errors propagate; a parse failure gives the fallback, a successful parse its value |
| CoverLetterReviewer.ReviewCoverLetter | agents/agent_8_reviewer.py:102-137 | an unparseable review gives the fallback, which asks for no revision |
| CoverLetterReviewer.AssessRevisionQuality | agents/agent_8_reviewer.py:210-241 | an unparseable assessment gives the fallback, which approves the revision |
| CoverLetterReviewer.CollapseCloses | agents/agent_8_reviewer.py:113 | collapsing `}}` keeps every `{` and removes at least one `}` when a `}}` occurs |
| CoverLetterReviewer.CleanupUnbalancesNestedClose | agents/agent_8_reviewer.py:113 | an answer without `{{` that closes two objects at once keeps all its `{` but loses a `}` |
| ResumeStructure.NextChar | utils/resume_validator.py:13 | the next occurrence of a character at or after an index, or the end of the line |
| ResumeStructure.NextCharFirst | utils/resume_validator.py:13 | no earlier occurrence lies between the index and the one found |
| ResumeStructure.NextNonSpace | utils/resume_validator.py:13 | the `\s*` run after the bold title ends within the line |
| ResumeStructure.BoldEnd | utils/resume_validator.py:182 | a `**...**` found at an index opens and closes with two stars and holds at least one character |
| ResumeStructure.BoldEndNoStar | utils/resume_validator.py:182 | the bold text `[^*]+` holds no star |
| ResumeStructure.ThirdBar | utils/resume_validator.py:13 | the third bar of a metadata match lies after its start and within the line |
| ResumeStructure.TitleFrom | utils/resume_validator.py:182-185 | the title group of `\*\*([^*]+)\*\*` holds no star |
| ResumeStructure.KindsOf | utils/resume_validator.py:36-49 | one classification per line of the resume |
| ResumeStructure.NoDoubleStar | utils/resume_validator.py:13 | a line without two adjacent stars is never a metadata line |
| ResumeStructure.HeadlineNoStarPair | utils/resume_validator.py:16 | a headline `^\*[^*]+\*$` has no two adjacent stars |
| ResumeStructure.NoStarPairAround | utils/resume_validator.py:16 | surrounding whitespace adds no adjacent stars |
| ResumeStructure.HeadlineOrBlankNotMetadata | utils/resume_validator.py:13-16 | a headline line or a blank line is never a metadata line |
| ResumeStructure.HeadersNonEmpty | utils/resume_validator.py:201-206 | every known section header starts with `#` |
| ResumeStructure.NoHeaderInEmpty | utils/resume_validator.py:208-210 | an empty line contains none of the known headers |
| ResumeStructure.HeadlineOrBlankNotHeader | utils/resume_validator.py:187-213 | a headline line or a blank line is no section header |
| ResumeStructure.StarOrEmptyNotHeader | utils/resume_validator.py:211-213 | a stripped line that is empty or starts with a star is neither a known header nor starts with `## ` |
| ResumeStructure.BlankNotExperienceHeader | utils/resume_validator.py:208-210 | a blank line is no Experience header |
| ResumeStructure.KindOfPlain | utils/resume_validator.py:146-213 | every line's classification keeps headline and blank lines apart from headers and metadata lines |
| ResumeStructure.KindsOfConsistent | utils/resume_validator.py:146-213 | every classified resume is consistent in that sense |
| ResumeStructure.KindsOfMarksHeadlines | utils/resume_validator.py:159-169 | a line marked as headline is an italic headline once stripped |
| ResumeStructure.SkipBlank | utils/resume_validator.py:80-82 | the first non-blank line at or after an index, or the end |
| ResumeStructure.SkipBlankSkipsBlanks | utils/resume_validator.py:80-82 | every line skipped is blank |
| ResumeStructure.SkipBlankLines | utils/resume_validator.py:79-82 | the loop stops at the first non-blank line and counts the blank lines it passed |
| ResumeStructure.HeadlinesFrom | utils/resume_validator.py:229-252 | the extracted map keeps every title already recorded |
| ResumeStructure.HeadlinesFromMarked | utils/resume_validator.py:241-250 | only lines marked as headlines are recorded |
| ResumeStructure.CollectHeadlines | utils/resume_validator.py:225-252 | the loop over all lines but the last computes the title-to-headline map, stopping at the header that leaves the Experience section |
| ResumeStructure.ExtractJobHeadlines | utils/resume_validator.py:215-252 | `_extract_job_headlines` on the split resume |
| ResumeStructure.OriginalHeadlinesAreHeadlines | utils/resume_validator.py:249-250 | every headline recovered from the original resume is an italic headline line |
| ResumeStructure.NotCritical | utils/resume_validator.py:135 | a text starting with something other than `C` does not start with CRITICAL |
| ResumeStructure.BlankLinesNotCritical | utils/resume_validator.py:85-87 | the blank-lines issue does not start with CRITICAL |
| ResumeStructure.FixWordingCritical | utils/resume_validator.py:67-121 | an issue of `validate_and_fix` starts with CRITICAL exactly when it is a missing headline |
| ResumeStructure.CheckWordingCritical | utils/resume_validator.py:284-302 | an issue of `validate_only` starts with CRITICAL exactly when it is a missing headline |
| ResumeStructure.Render | utils/resume_validator.py:67 | each issue is worded in order, one text per issue |
| ResumeStructure.ThenAssociative | utils/resume_validator.py:37-71 | appending the lines, issues and fixes of successive steps is associative |
| ResumeStructure.MetadataNext | utils/resume_validator.py:71-117 | handling a metadata line always moves past it |
| ResumeStructure.FixNext | utils/resume_validator.py:48-130 | every pass of the loop moves forward within the lines, so the loop ends |
| ResumeStructure.FixLine | utils/resume_validator.py:49-130 | one pass of the loop appends what the line's repair prescribes and sets the section flag as the header tests decide |
| ResumeStructure.FollowMetadata | utils/resume_validator.py:74-126 | after a metadata line: blank lines removed and reported, a present headline kept, a missing one recovered from the original or replaced by a placeholder, and at the end of the file recovered only from the original |
| ResumeStructure.Critical | utils/resume_validator.py:135 | the critical issues are exactly the issues containing CRITICAL |
| ResumeStructure.NoCriticalIff | utils/resume_validator.py:135-136 | no critical issues exactly when no issue contains CRITICAL |
| ResumeStructure.FixLines | utils/resume_validator.py:33-130 | the `while` loop produces the fixed lines, the issues and the fixes the repair function prescribes |
| ResumeStructure.ValidateAndFix | utils/resume_validator.py:18-144 | the report: fixed resume joined with newlines, issues and fixes in order, valid exactly when no issue contains CRITICAL, and `had_critical_issues` its negation |
| ResumeStructure.CheckLine | utils/resume_validator.py:269-302 | one pass of `validate_only`'s loop: missing backslash, blank lines, missing headline, or missing headline at the end of the file |
| ResumeStructure.CheckLines | utils/resume_validator.py:264-302 | the loop collects the issues of every line in order |
| ResumeStructure.ValidateOnly | utils/resume_validator.py:254-308 | the report: valid exactly when there is no issue at all, and the critical count is the number of issues containing CRITICAL |
| ResumeStructureFacts.JobTitleStarFree | utils/resume_validator.py:171-185 | an extracted job title never contains a star |
| ResumeStructureFacts.PlaceholderIsHeadline | utils/resume_validator.py:112 | the placeholder `*Role description for <title>*` is a headline for a star-free title |
| ResumeStructureFacts.BackslashRepaired | utils/resume_validator.py:66-71 | a metadata line is emitted once, and ends with a backslash after the repair |
| ResumeStructureFacts.BlanksSkipped | utils/resume_validator.py:79-82 | the lines skipped after a metadata line are blank and processing resumes no earlier than the first non-blank line |
| ResumeStructureFacts.BlanksDropped | utils/resume_validator.py:79-90 | blank lines after metadata are reported and removed with their count, and never copied |
| ResumeStructureFacts.InsertedIsHeadline | utils/resume_validator.py:104-116 | the line inserted for a missing headline is always a headline line |
| ResumeStructureFacts.HeadlineRestored | utils/resume_validator.py:92-118 | a present headline is copied and skipped; a missing one is reported, the original's or the placeholder is inserted, and the line is processed again |
| ResumeStructureFacts.EndOfFileRecoversOnly | utils/resume_validator.py:119-126 | metadata on the last line is reported and a headline is added only when the original has one, never a placeholder |
| ResumeStructureFacts.NoExperienceUnchanged | utils/resume_validator.py:48-130 | with no Experience section ahead, every line is copied unchanged and nothing is reported |
| ResumeStructureFacts.FixesAtMostIssues | utils/resume_validator.py:65-126 | the fixer records at most one fix per issue |
| ResumeStructureFacts.BlanksCheckNothing | utils/resume_validator.py:268-302 | blank lines raise no issue in `validate_only` |
| ResumeStructureFacts.HeadlineChecksNothing | utils/resume_validator.py:268-302 | a headline line raises no issue in `validate_only` |
| ResumeStructureFacts.MetadataChecksSkipped | utils/resume_validator.py:286-300 | the lines the fixer skips after a metadata line raise no issue in `validate_only` |
| ResumeStructureFacts.CheckResumesAtFixNext | utils/resume_validator.py:48-302 | `validate_only` from the next line finds what it finds from where the fixer resumes |
| ResumeStructureFacts.StepIssuesAgree | utils/resume_validator.py:61-302 | for one line both validators find the same issues |
| ResumeStructureFacts.IssuesAgree | utils/resume_validator.py:18-302 | over the whole resume both validators find the same issues in the same order |
| ResumeStructureFacts.CleanStep | utils/resume_validator.py:61-130 | a line without issues is copied as it is, with the lines it skips |
| ResumeStructureFacts.CleanIsFixedPoint | utils/resume_validator.py:18-130 | a resume without issues is left unchanged by the fixer |
| ResumeStructureFacts.StartsCritical | utils/resume_validator.py:135 | a text starting with CRITICAL contains it |
| ResumeStructureFacts.ValidatorsAgree | utils/resume_validator.py:18-308 | both validators report the same issues, each in its own words; `validate_only` is valid exactly when the fixer found nothing, and then the fixer returns the resume unchanged, valid, with nothing fixed |
| ResumeStructureFacts.ValidMeansNoMissingHeadline | utils/resume_validator.py:102-136 | a valid report of `validate_and_fix` has no missing headline among its issues |
| ResumeStandards.PromptPrefix | utils/resume_standards.py:182-189 | the prefix is the standards text, a blank line, then the agent's guidelines |
| ResumeStandards.PromptPrefixParts | utils/resume_standards.py:182-189 | both parts can be read back from the prefix |
| ResumeStandards.LineEnd | utils/resume_standards.py:206 | the end of the line holding an index: the next line break or the end of the text, the limit of every `.*` |
| ResumeStandards.OpeningBar | utils/resume_standards.py:206 | where `\*\*[^*]+\*\*\s*\|` matches at an index, the position of its bar, after a bold title of at least one character; the title and the spaces may run over line breaks |
| ResumeStandards.SecondBar | utils/resume_standards.py:206 | the bar that closes `\|.*\|.*\|`: two more bars after the opening one, both before that line ends |
| ResumeStandards.ItalicEnd | utils/resume_standards.py:206 | a `\*[^*]+\*` starting at an index ends in a star after at least one non-star |
| ResumeStandards.LastItalic | utils/resume_standards.py:206 | the start of the last `\*[^*]+\*` in a range, which the greedy `.*` leaves for the pattern's tail |
| ResumeStandards.LastItalicIsLast | utils/resume_standards.py:206 | no italic run starts in the range after the one found |
| ResumeStandards.ItalicSeen | utils/resume_standards.py:206 | any italic run in the range makes the one found start at or after it |
| ResumeStandards.MatchAt | utils/resume_standards.py:206-207 | the end of the match of the metadata pattern at an index, if any: after the start and on a star |
| ResumeStandards.MatchEndsLast | utils/resume_standards.py:206-207 | no italic run starts between the end of a match and the end of its bars' line |
| ResumeStandards.ItalicFromFound | utils/resume_standards.py:206 | on one line, the structure validator's italic scan finding a run means an italic run starts there |
| ResumeStandards.ItalicFromSees | utils/resume_standards.py:206 | on one line, any italic run ahead is found by the structure validator's italic scan |
| ResumeStandards.SameLinePattern | utils/resume_standards.py:206 | on a text without line breaks the pattern matches at an index exactly when the structure validator's metadata test holds there |
| ResumeStandards.FinditerSpans | utils/resume_standards.py:207 | `finditer` yields matches in increasing order, each starting where the pattern matches and ending where that match ends, without overlap |
| ResumeStandards.FinditerNoneIff | utils/resume_standards.py:207 | `finditer` yields nothing exactly when the pattern matches at no index |
| ResumeStandards.FinditerCovers | utils/resume_standards.py:207 | every index where the pattern matches lies inside some match `finditer` yields |
| ResumeStandards.Matches | utils/resume_standards.py:207-208 | the match texts, one per `finditer` match, each ending in a star |
| ResumeStandards.StarNotBackslash | utils/resume_standards.py:209 | a match text, ending in a star, never ends in a backslash once rstripped |
| ResumeStandards.Excerpt | utils/resume_standards.py:213-230 | `line[:50] + "..."` is at most 53 characters and ends in `...` |
| ResumeStandards.CriticalIssues | utils/resume_standards.py:243 | the CRITICAL issues are no more than the issues |
| ResumeStandards.CriticalIssuesAppend | utils/resume_standards.py:243 | the critical issues of two lists appended are those of each, appended |
| ResumeStandards.StdLinesOf | utils/resume_standards.py:217-218 | one set of line tests per line |
| ResumeStandards.NextNonBlank | utils/resume_standards.py:221-223 | the first non-blank line at or after an index, or the end |
| ResumeStandards.StandardsOf | utils/resume_standards.py:192-246 | the word count is the number of whitespace-separated words, and the resume is valid exactly when no issue is CRITICAL |
| ResumeStandards.EveryMatchReported | utils/resume_standards.py:207-214 | the backslash loop reports one missing backslash per match text, in order |
| ResumeStandards.BackslashCount | utils/resume_standards.py:207-214 | there are as many backslash issues as match texts |
| ResumeStandards.HeadlineIssuesWarn | utils/resume_standards.py:224-231 | every headline issue is a WARNING |
| ResumeStandards.WarningsOnly | utils/resume_standards.py:243 | warnings leave no critical issue |
| ResumeStandards.BackslashCritical | utils/resume_standards.py:209-214 | every backslash issue is CRITICAL |
| ResumeStandards.CriticalAreBackslash | utils/resume_standards.py:202-246 | the critical issues are exactly the backslash issues |
| ResumeStandards.StandardsValidIff | utils/resume_standards.py:192-246 | the check passes exactly when the metadata pattern matches nowhere in the resume, because every match fails the backslash test |
| ResumeStandards.CriticalPerMatch | utils/resume_standards.py:207-243 | the critical issues are one per `finditer` match over the whole resume, in order |
| ResumeStandards.WellFormedLineFails | utils/resume_standards.py:206-214 | a metadata line ending in the backslash the standards ask for still fails: the match stops at the closing star, before the backslash |
| ResumeStandards.MatchAcrossLines | utils/resume_standards.py:206-214 | a match can run over a line break through the dates' `[^*]+`: the text fails although its first line alone does not match |
| ResumeStandards.FirstLineAlone | utils/resume_standards.py:206 | the first line of that example does not match on its own |
| ResumeStandards.LengthWarning | utils/resume_standards.py:233-240 | more than 800 words draws exactly one length warning, which never makes the check fail |
| ResumeStandards.BackslashIssuesAll | utils/resume_standards.py:209-214 | the backslash loop reports only missing backslashes |
| ResumeStandards.HeadlineWarnedIff | utils/resume_standards.py:219-231 | a line matched at its start draws a warning exactly when its next non-blank line exists and is not `*...*` (and not `**`) |
| ResumeStandards.AllBlankSkipped | utils/resume_standards.py:221-223 | the scan runs to the end when every line ahead is blank |
| ResumeStandards.CheckBackslashes | utils/resume_standards.py:207-214 | the `finditer` loop over the whole resume reports one missing backslash per match, in order |
| ResumeStandards.CheckHeadlines | utils/resume_standards.py:217-231 | the headline loop with its inner blank-line scan reports the warnings of every line, in order |
| ResumeStandards.ValidateAgainstStandards | utils/resume_standards.py:192-246 | the method computes the report `StandardsOf` specifies |
| StandardsEnforcement.FeedbackTextFrame | utils/standards_enforcer.py:148-162 | feedback text starts with its header and ends with its reminders, whatever the issues |
| StandardsEnforcement.FeedbackFrame | utils/standards_enforcer.py:148-160 | every feedback starts with the "Standards Validation Failed" header and ends with the three key reminders |
| StandardsEnforcement.FeedbackWithoutCritical | utils/standards_enforcer.py:150-152 | without a CRITICAL issue the feedback is the header and the reminders alone |
| StandardsEnforcement.CriticalLineListed | utils/standards_enforcer.py:151-154 | each critical issue's line sits in the feedback after the lines of the critical issues before it |
| StandardsEnforcement.CriticalIssueListed | utils/standards_enforcer.py:150-154 | the feedback lists `- [category] description` for every CRITICAL issue, in order, under the CRITICAL ISSUES heading |
| StandardsEnforcement.CriticalIssuesCritical | utils/standards_enforcer.py:150 | the filtered issues are all CRITICAL |
| StandardsEnforcement.CriticalKept | utils/standards_enforcer.py:150 | filtering issues that are all CRITICAL keeps them all |
| StandardsEnforcement.FeedbackIgnoresWarnings | utils/standards_enforcer.py:150-154 | warnings do not change the feedback |
| StandardsEnforcement.GenerateFeedback | utils/standards_enforcer.py:138-162 | `_generate_feedback` builds the feedback text the specification function gives |
| StandardsEnforcement.AppendLines | utils/standards_enforcer.py:153-154 | the loop appends one rendered line per critical issue, in order |
| StandardsEnforcement.ReturnedResume | utils/standards_enforcer.py:52-57 | a dict result yields `modified_resume` when non-empty, else `optimized_resume` when non-empty; a plain result yields itself when non-empty; an empty result yields nothing |
| StandardsEnforcement.IssueEntries | utils/standards_enforcer.py:71-77 | one log entry per issue, in order, numbered with the attempt |
| StandardsEnforcement.CallsBounded | utils/standards_enforcer.py:47-111 | from any attempt the loop calls the agent at least once more and at most once per attempt left, keeping the earlier calls |
| StandardsEnforcement.CallCount | utils/standards_enforcer.py:47-49 | the agent is called at least once and at most `max_retries + 1` times, the first time without feedback |
| StandardsEnforcement.RetriedAt | utils/standards_enforcer.py:81-111 | a call followed by another returned a resume with a CRITICAL issue, and the next call gets the feedback for its issues |
| StandardsEnforcement.RetriedOnlyOnCritical | utils/standards_enforcer.py:81-111 | every call but the last was rejected for CRITICAL issues and the next received `standards_feedback` for them: the loop stops at the first attempt that passes |
| StandardsEnforcement.LastCall | utils/standards_enforcer.py:57-103 | the outcome of the last call: no resume returns the input with the error; otherwise `retry_count` is the number of retries, the validation and word counts are those of the last resume, which is returned as it is when it passes and fixed by the structure fixer only after the last allowed attempt |
| StandardsEnforcement.AttemptLogPrefix | utils/standards_enforcer.py:70-77 | later calls do not change the log of earlier ones |
| StandardsEnforcement.LogOfAttempts | utils/standards_enforcer.py:70-92 | the log holds every attempt's issues, then the fallback entry when the fixes ran |
| StandardsEnforcement.EnforceOutcome | utils/standards_enforcer.py:42-111 | every call before the last was rejected, `retry_count` is the number of calls less one, and the log holds every attempt's issues and the fallback entry |
| StandardsEnforcement.StandardsEnforcer.constructor | utils/standards_enforcer.py:9-16 | the enforcer keeps its retry limit |
| StandardsEnforcement.StandardsEnforcer.ApplyProgrammaticFixes | utils/standards_enforcer.py:113-136 | the structure fixer's resume, with no original resume |
| StandardsEnforcement.StandardsEnforcer.EnforceWithRetry | utils/standards_enforcer.py:18-111 | `enforce_with_retry` computes the outcome the loop specification gives with the standards check, the fixer and the feedback writer |
| StandardsEnforcement.StandardsEnforcer.RetryLoop | utils/standards_enforcer.py:42-111 | the `for attempt` loop computes that outcome for any check, fixer and feedback writer |
| StandardsEnforcement.StandardsEnforcer.LogIssues | utils/standards_enforcer.py:71-77 | the log gains one entry per issue, in order |
| AppSettings.Update | utils/settings.py:199-210 | a dictionary update: every key of the overlay replaces or adds, every other key of the base stays |
| AppSettings.LoadSettings | utils/settings.py:184-216 | loading keeps every default key and, when the defaults hold the three LLM keys, the result holds them too |
| AppSettings.CloudHidesLocal | utils/settings.py:198-203 | with cloud storage and a non-empty cloud dictionary the local file is irrelevant, and the keys are the defaults' plus the cloud's |
| AppSettings.LocalIgnoresCloud | utils/settings.py:198-203 | with any other storage type the cloud store is never consulted |
| AppSettings.EmptyCloudFallsBack | utils/settings.py:200-203 | an empty cloud dictionary is falsy, so the local file is read as if there were no cloud store |
| AppSettings.SaveSettings | utils/settings.py:219-246 | a save reports success exactly when the cloud write (with cloud storage) or the local write succeeds; the next load sees it only if it reported success, and without cloud storage exactly then |
| AppSettings.ReportedButHidden | utils/settings.py:229-246 | with cloud storage, a failed cloud write and a successful local write report success while the next load still reads the cloud dictionary |
| AppSettings.Named | utils/settings.py:342-356 | the lookup finds the first provider with the name, or reports that none has it |
| AppSettings.AddProviderTo | utils/settings.py:359-388 | adding fails exactly when a provider with the name exists; otherwise the provider is appended and nothing else changes |
| AppSettings.AddedIsFound | utils/settings.py:359-388 | after adding, the lookup by name finds the new provider at the end, and distinct names stay distinct |
| AppSettings.UpdateProviderIn | utils/settings.py:391-418 | updating fails exactly when no provider has the name |
| AppSettings.UpdateFirstOnly | utils/settings.py:391-418 | an update sets the given fields of the first provider with the name, keeps its name and the fields given as None, and leaves every other provider and key unchanged |
| AppSettings.Without | utils/settings.py:434-437 | the filtered list holds no provider with the name, keeps every other provider, and is shorter exactly when some provider had the name |
| AppSettings.DeleteProviderFrom | utils/settings.py:421-451 | the providers with the name are removed and the other keys kept; the default is never the deleted name afterwards; a different default is untouched; it raises exactly when the deleted default leaves a first provider without models |
| AppSettings.DeletedDefaultReset | utils/settings.py:439-446 | after deleting the default provider the default is the first remaining provider with one of its own models, or both are None when no provider remains |
| AppSettings.AddModelTo | utils/settings.py:454-474 | adding a model fails exactly when the provider is missing or already lists the model |
| AppSettings.ModelAddedOnce | utils/settings.py:466-468 | the added model is appended after the existing models and occurs exactly once |
| AppSettings.RemoveFirst | utils/settings.py:489 | removal takes out one occurrence: one element fewer, the same multiset less that model |
| AppSettings.RemoveModelFrom | utils/settings.py:477-505 | removing a model fails exactly when the provider is missing or does not list the model |
| AppSettings.ModelRemoved | utils/settings.py:487-501 | one occurrence of the model goes, the other providers and the default provider are unchanged, and a reset default model is one of the remaining models or None |
| AppSettings.SetDefaultIn | utils/settings.py:508-534 | on success the default provider is the name, with the providers and other keys unchanged; an unknown provider always fails |
| AppSettings.DefaultModelFor | utils/settings.py:543-559 | a non-empty stored default model is returned as is; any other model returned is the first model of some provider |
| AppSettings.SetThenGet | utils/settings.py:508-559 | after setting the default provider, the default model read back is the model given, else the provider's first model, else None |
| AppSettings.SettingsStore.constructor | utils/settings.py:26-84 | the store starts with the stored dictionary, the shared default provider list and the default provider `gemini` with no default model |
| AppSettings.SettingsStore.Loaded | utils/settings.py:184-216 | a loaded dictionary always has a provider list, and it is the shared default list itself while the store has none |
| AppSettings.SettingsStore.FindProvider | utils/settings.py:352-355 | the search loop stops at the first provider with the name |
| AppSettings.SettingsStore.Commit | utils/settings.py:219-246 | the result is what the save reported; the stored dictionary becomes the edit exactly when the next load sees the write; an in-place edit of the shared default list stays even when the save fails |
| AppSettings.SettingsStore.AddProvider | utils/settings.py:359-388 | reports success exactly when the name is new and the save reports success; the next load shows the appended provider when the write is visible to it, or when the defaults are shared even after a failed save |
| AppSettings.SettingsStore.UpdateProvider | utils/settings.py:391-418 | reports success exactly when the provider exists and the save reports success; the update is stored when the write is visible to the next load, and the shared defaults are edited in place when they were loaded |
| AppSettings.SettingsStore.DeleteProvider | utils/settings.py:421-451 | the shared defaults are never edited; raises as the filtered delete does, and otherwise saves only when something was removed, reporting the save's result |
| AppSettings.SettingsStore.AddModel | utils/settings.py:454-474 | reports success exactly when the provider exists, lacks the model and the save reports success; the edit is stored when the write is visible, and appended to the shared default list in place when it was loaded |
| AppSettings.SettingsStore.RemoveModel | utils/settings.py:477-505 | reports success exactly when the provider lists the model and the save reports success; the edit is stored when the write is visible, and removed from the shared default list in place when it was loaded |
| AppSettings.SettingsStore.SetDefaultProvider | utils/settings.py:508-534 | reports success exactly when the provider and model are valid and the save reports success; the edit is stored when the write is visible; the shared defaults are not edited |
| AppSettings.SettingsStore.GetDefaultModel | utils/settings.py:543-559 | a non-empty stored default model is what is returned |
| MarkdownRendering.RunEnd | utils/markdown_renderer.py:21-28 | the end of a delimiter-free run lies in the text and, when inside it, holds the delimiter |
| MarkdownRendering.RunEndFirst | utils/markdown_renderer.py:21-28 | no character before the end of the run is the delimiter |
| MarkdownRendering.MatchEnd | utils/markdown_renderer.py:21-28 | a match spans at least seven characters and stays within the text |
| MarkdownRendering.MatchEndFacts | utils/markdown_renderer.py:21-28 | a match is three delimiters, a non-empty delimiter-free group and three delimiters |
| MarkdownRendering.MatchesAtFound | utils/markdown_renderer.py:21-28 | every match the regular expression sees is found by the scanner, with the same group |
| MarkdownRendering.FoundMatchesAt | utils/markdown_renderer.py:21-28 | every match the scanner finds is one the regular expression sees |
| MarkdownRendering.MatchEndIff | utils/markdown_renderer.py:21-28 | the scanner finds exactly the matches the regular expression describes, with their group |
| MarkdownRendering.RenderMarkdownWithHtml | utils/markdown_renderer.py:36-49 | Streamlit always receives `unsafe_allow_html`, and text with neither `***` nor `___` is passed through unchanged |
| MarkdownRendering.MatchEndSuffix | utils/markdown_renderer.py:20-31 | whether a match starts at a position does not depend on the text before it |
| MarkdownRendering.SubNoMatch | utils/markdown_renderer.py:20-31 | text the pattern matches nowhere is copied unchanged |
| MarkdownRendering.SubLength | utils/markdown_renderer.py:20-31 | a pass never shortens the text when the replacement is at least as long as the match |
| MarkdownRendering.SubGrows | utils/markdown_renderer.py:20-31 | with a longer replacement, any match makes the pass longer than the text |
| MarkdownRendering.TaggedLonger | utils/markdown_renderer.py:22-29 | the replacement `<b><i>\1</i></b>` is the group plus fourteen characters, eight more than the match |
| MarkdownRendering.SubUnchangedIff | utils/markdown_renderer.py:20-31 | a pass leaves the text as it is exactly when the pattern matches nowhere in it |
| MarkdownRendering.NoTripleNoMatch | utils/markdown_renderer.py:21-28 | without three delimiters in a row there is no match |
| MarkdownRendering.SubPlain | utils/markdown_renderer.py:20-31 | delimiter-free text in front is copied and the pass goes on after it |
| MarkdownRendering.SubFree | utils/markdown_renderer.py:20-31 | delimiter-free text comes out of a pass unchanged |
| MarkdownRendering.RewriteFront | utils/markdown_renderer.py:20-31 | `dddxddd` at the front becomes the replacement for `x` and the rest is rewritten on its own |
| MarkdownRendering.Rewrite | utils/markdown_renderer.py:20-31 | `dddxddd` after delimiter-free text becomes the replacement for `x` and the rest is rewritten on its own |
| MarkdownRendering.ProcessMarkdownUnchanged | utils/markdown_renderer.py:5-33 | text with neither `***` nor `___` comes back unchanged |
| MarkdownRendering.PassWhole | utils/markdown_renderer.py:20-31 | one pass turns a whole `dddxddd` into `<b><i>x</i></b>` |
| MarkdownRendering.ProcessBoldItalic | utils/markdown_renderer.py:5-33 | a whole `***x***` or `___x___` becomes `<b><i>x</i></b>` |
| MarkdownRendering.RunEndAt | utils/markdown_renderer.py:21-28 | a delimiter-free run ends exactly at the first delimiter |
| MarkdownRendering.RunEndSuffix | utils/markdown_renderer.py:21-28 | where a run ends does not depend on the text before it |
| MarkdownRendering.MatchEndDrop | utils/markdown_renderer.py:20-31 | dropping the first characters of the text shifts every match by as many |
| MarkdownRendering.TaggedFree | utils/markdown_renderer.py:22-29 | the replacement adds no character beyond the group's and the tags' |
| SecretVars.CreateFlag | terraform/validate_secret_vars.py:12-16 | a string flag is on exactly when it is `1`, `true` or `yes` in any case; a missing flag is off |
| SecretVars.SecretOf | terraform/validate_secret_vars.py:18-20 | a missing or falsy secret value becomes the empty string; a truthy one is kept |
| SecretVars.Empty | terraform/validate_secret_vars.py:22-23 | the blank test fails with an error exactly when the value is not a string |
| SecretVars.StripBlank | terraform/validate_secret_vars.py:23 | stripping leaves nothing exactly when the text is all whitespace |
| SecretVars.CheckInput | terraform/validate_secret_vars.py:4-34 | unreadable input, and only that, exits with code 2; input that is not an object raises |
| SecretVars.SecretText | terraform/validate_secret_vars.py:18-20 | a readable secret value stands for this text after the `or ''` default |
| SecretVars.DecideIff | terraform/validate_secret_vars.py:25-34 | with readable values the script exits with code 1 exactly when creation is on and one of the three values is blank, and otherwise prints the ok line |
| SecretVars.CreationOffPasses | terraform/validate_secret_vars.py:25 | with creation off the secret values are not examined and the ok line is printed |
| SecretVars.UnreadableRaises | terraform/validate_secret_vars.py:22-25 | with creation on, a truthy first secret that is not a string makes the script raise |
| TerraformChecks.FileReferences | terraform/validate_terraform.py:95-103 | one file's errors: at most one per conditional resource, each naming that file and a conditional resource |
| TerraformChecks.ReferenceErrorsFound | terraform/validate_terraform.py:95-103 | every unconditional-reference error names a loaded file and a conditional resource that the `depends_on` search found in it |
| TerraformChecks.FileReferencesFound | terraform/validate_terraform.py:96-103 | an error for a file names a conditional resource the search found in that file |
| TerraformChecks.FileReferencesComplete | terraform/validate_terraform.py:96-103 | conversely, every conditional resource the search finds in a file is reported for that file |
| TerraformChecks.ResourceNotes | terraform/validate_terraform.py:123-125 | at most one note per resource type of an enabled API |
| TerraformChecks.ApiWarnings | terraform/validate_terraform.py:117-121 | at most one warning per API in the table |
| TerraformChecks.ApiNotEnabledSkips | terraform/validate_terraform.py:117-121 | an API whose `service = "…"` line is absent gets its warning, and none of its resource types produces a note |
| TerraformChecks.NotesOfEnabled | terraform/validate_terraform.py:117-125 | every API note is for an API of the table that the configuration enables |
| TerraformChecks.ResourceNotesFor | terraform/validate_terraform.py:123-125 | a resource note names its API and a resource type of that API that occurs in the text |
| TerraformChecks.Undefined | terraform/validate_terraform.py:135 | the undefined references are no more than the references |
| TerraformChecks.UndefinedExactly | terraform/validate_terraform.py:133-138 | the reported variables are exactly the referenced ones not declared in variables.tf, and they stay in sorted order |
| TerraformChecks.MissingProjectOf | terraform/validate_terraform.py:149-161 | at most one report per matched resource |
| TerraformChecks.ProjectWarnings | terraform/validate_terraform.py:163-165 | one warning per resource lacking a project, in order, but only when there are one to four of them; none otherwise |
| TerraformChecks.ComputeResourceReported | terraform/validate_terraform.py:149-161 | the compute skip never fires: the captured type lacks the `google_` prefix, so a compute resource without a project is reported |
| TerraformChecks.MissingProjectReported | terraform/validate_terraform.py:149-161 | every resource that is neither skipped nor mentions `project` or `${` in its body is reported |
| TerraformChecks.TerraformValidator.constructor | terraform/validate_terraform.py:24-30 | a fresh validator has no errors, warnings, notes or files, and its variables are still the empty dict |
| TerraformChecks.TerraformValidator.LoadTfFiles | terraform/validate_terraform.py:54-71 | the files are stored; the declared variables are set only when a `variables.tf` is among them; no report list changes |
| TerraformChecks.TerraformValidator.CheckResourceConditions | terraform/validate_terraform.py:73-103 | with no conditional resource one note and no error; otherwise exactly the reference errors file by file; warnings, files and variables unchanged |
| TerraformChecks.TerraformValidator.ReferencesIn | terraform/validate_terraform.py:95-103 | the nested loops over files and conditional resources produce exactly the reference errors |
| TerraformChecks.TerraformValidator.CheckApiDependencies | terraform/validate_terraform.py:105-125 | the warnings gain exactly the not-enabled APIs and the notes exactly the resource notes of enabled APIs, over the joined text of all files |
| TerraformChecks.TerraformValidator.ApiChecks | terraform/validate_terraform.py:117-125 | the loop over the API table yields exactly the warnings and notes of the specification functions |
| TerraformChecks.TerraformValidator.CheckVariableConsistency | terraform/validate_terraform.py:127-140 | fails exactly when the variables are still the empty dict; otherwise one error per undefined reference, or a single note counting the references when none is undefined |
| TerraformChecks.TerraformValidator.CheckRequiredFields | terraform/validate_terraform.py:142-165 | the warnings gain exactly the project warnings of the matched resources; nothing else changes |
| TerraformChecks.TerraformValidator.CheckDependsOnLogic | terraform/validate_terraform.py:167-183 | a warning for an empty `depends_on`, one for a circular pattern, and always the closing note |
| TerraformChecks.TerraformValidator.RunAllChecks | terraform/validate_terraform.py:32-52 | no files: false with one error; no variables.tf: the variable check raises; otherwise true exactly when no error was recorded, the errors being the reference errors followed by the variable errors |
| TerraformChecks.TerraformValidator.RunChecks | terraform/validate_terraform.py:42-52 | the five checks in order leave exactly the reference and variable errors and always the closing note |

## Left out

- Provider SDK and network calls are not modelled. This covers the Gemini and Claude `generate_with_system_prompt` bodies in utils/llm_client.py, the OpenAI client call, `genai` in utils/gemini_client.py, and the job-page fetch. Each call's result is an input: a sequence of `Outcome` values for the retry loop, and a function value for the agents.
- `time.sleep` is not performed. The retry loop returns the delays it would sleep, in integer milliseconds.
- Clocks and timestamps are parameters (the debug log's timestamp).
- Floating point is left out: temperatures and call durations. The `0.8` factor of token sizing is written as integer truncation of `4/5`.
- `json.loads` and Pydantic validation are not modelled. Parsing is a function parameter returning a parsed `Json` value or nothing; the schemas check such a value.
- Regular expressions are hand-written predicates, for example the metadata and headline patterns and the markdown emphasis patterns.
- The Terraform validator's `re.findall` and `re.search` results over the `.tf` files are inputs (a `Scan`), and so is the reading of those files. `argparse`, `_print_report` and the script `main` are not modelled.
- `str.lower`/`str.upper` are ASCII-only; Unicode case mapping is not modelled. Whitespace (`Text.IsSpace`) is the full set of characters Python's `str.isspace` accepts, Unicode spaces included, and is also what `\s` and `strip()` use.
- The LangGraph runtime is modelled by its observable effect: an explicit transition table and a merge of each node's delta. Message objects, ids, checkpoint storage and the conversion of messages to dictionaries are not modelled.
- Tracing (`traceable`), `log_llm_call`, logging and every `print` are left out: they do not change results. The one exception is the scorer's debug line, whose `len(result['analysis'])` can raise; `ResumeScorer.AnalyzeAndScore` models that raise.
- Settings persistence (`_load_from_cloud`, `_save_to_cloud`, the local file, `_get_storage_type`) is abstract. The stored dictionary, whether the cloud and local writes succeed and whether the cloud store holds settings are inputs; `AppSettings.SaveSettings` turns them into what a save reports and whether the next load sees it, and the store's methods take that `Save` value.
- `os.getenv` values are inputs, and so are the default provider list `_get_default_providers` builds from them.
- `get_setting`, `set_setting`, `get_settings_source`, `get_saved_llm_config`, `set_saved_llm_config`, `get_llm_providers` and `get_default_provider` in utils/settings.py are not modelled: they are one-line reads and writes of a settings key.
- `get_provider` loads the settings twice; the model reads them once, since nothing changes them in between.
- The module-level wrappers of utils/debug.py and `get_all_interactions` are not modelled: each delegates to the single `LLMInteractionCapture` instance.
- `create_enforced_agent_wrapper` in utils/standards_enforcer.py is not modelled. It looks up the agent method by name with `getattr` and is not called anywhere in the system.
- Prompt texts are not modelled, except where the code inspects them or a property depends on them: markers, feedback texts and issue wordings.
- PDF rendering and job-description scraping are agent functions taken as inputs.
- The Streamlit UI, `app.py`, `main.py` and the agent helper glue are not modelled, and neither are the test scripts.
- WorkflowOrchestrator.GetWorkflowStatus: the `"unknown"` default for a missing stage is not modelled, because the state record always holds a stage.
- WorkflowOrchestrator.RunFullWorkflow: the orchestrator's updates of the state dictionary in place are modelled on values. Aliasing between the state a caller holds and the one returned is not captured.
- LlmClient.GenerateWithSystemPrompt: a failed request is reported through the corrected handler `Raised`, which re-raises a connection error with its own message; the handler as written raises a NameError on `base_url` instead (see Findings, modelled by `LlmClient.RaisedAsWritten`).
- Text.ParseInt and Text.IsDigit: only ASCII digits are read, with no `_` separators. Python's `int()` and `\d` also accept other Unicode decimal digits, and `int()` accepts `8_5` as 85, so a reply such as `SCORE: 8_5` reads 8 in the model where Python reads 85.
- StandardsEnforcement.EnforceFrom, StandardsEnforcement.Enforce and StandardsEnforcement.StandardsEnforcer: the retry limit is a `nat`. A negative `max_retries` runs no attempt at all in Python, and `enforce_with_retry` then returns None; the model does not represent that case. The only caller passes 1.
- ResumeScorer.ScoreOf: fractional JSON numbers are outside the `Json` model, so a score such as `72.5` is not represented; integers, booleans, null and the non-numeric values are.
- ResumeModifier.Field: Python's `str` of a non-string JSON value is a parameter (`show`), not modelled.
- CoverLetterWriter: a provider answer whose content is `None` is not modelled; the answer is a string.

## Findings

| source | as written | input that shows it | evidently intended | confidence | as-written member | corrected member |
|---|---|---|---|---|---|---|
| utils/llm_client.py:480-495 | the handler for connection and other non-API errors formats `base_url`, which is a local of `__init__`, so the handler raises NameError | any connection error raised by `chat.completions.create`, for example a refused connection | re-raise the original connection error after reporting it | high; not executed | LlmClient.RaisedAsWritten, LlmClient.ConnectionErrorMasked | LlmClient.Raised |
