/**
 * The provider-independent client layer: answer extraction, the
 * OpenAI-compatible client's token sizing, 503 retry loop and truncation
 * repair, the client factory and the model lists.
 */
module LlmClient {
  import opened Text
  import opened Wrappers
  import opened ResponseExtraction

  /** Phrases after which the base extraction looks for the next `{`. */
  const JsonMarkers: seq<String> := [
    "json\n{", "JSON:\n{", "```json",
    "Here is the JSON", "Here's the JSON",
    "The JSON response", "Final response:",
    "\"score\":", "'score':"
  ]

  const ReasoningPhrases: seq<String> := [
    "i need to analyze", "let me go through", "step by step",
    "first,", "the score is", "the user has provided"
  ]

  /** A `{` found from any position is at or after the first `{` of the text. */
  lemma MarkerScanCannotMoveStart(content: String, from: nat)
    ensures var t := FindFrom(content, "{", from);
      t != -1 ==> Find(content, "{") != -1 && t >= Find(content, "{")
  {
    var t := FindFrom(content, "{", from);
    if t != -1 {
      assert OccursAt(content, "{", t);
    }
  }

  /**
   * `LLMClient._extract_response_from_reasoning_output` (the custom client's
   * override runs the same steps without the reasoning-only diagnosis).
   * The marker scan never moves the JSON start: any `{` found after a marker
   * is at or after the first `{` of the text.
   */
  method ExtractFromReasoningOutput(content: String) returns (r: String)
    ensures r == Extract(content)
    ensures IsInfix(r, content)
  {
    ExtractIsInfix(content);
    if HasThinkBlock(content) {
      return Strip(LastPart(content, "</think>"));
    }
    if LooksLikeJson(content) {
      return content;
    }
    var jsonStart := Find(content, "{");
    var lowered := Lower(content);
    var i := 0;
    while i < |JsonMarkers|
      invariant 0 <= i <= |JsonMarkers|
      invariant jsonStart == Find(content, "{")
    {
      var markerPos := Find(lowered, Lower(JsonMarkers[i]));
      if markerPos != -1 {
        var tempStart := FindFrom(content, "{", markerPos);
        MarkerScanCannotMoveStart(content, markerPos);
        if tempStart != -1 && (jsonStart == -1 || tempStart < jsonStart) {
          jsonStart := tempStart;
        }
      }
      i := i + 1;
    }
    r := CutJson(content, lowered, jsonStart);
  }

  /** The steps after the marker scan: the brace cut, the regex fallback, the reasoning-only diagnosis. */
  method CutJson(content: String, lowered: String, jsonStart: int) returns (r: String)
    requires !HasThinkBlock(content) && !LooksLikeJson(content)
    requires jsonStart == Find(content, "{")
    ensures r == Extract(content)
  {
    ghost var direct := BraceSpan(content);
    if jsonStart != -1 {
      var jsonEnd := RFind(content, "}");
      if jsonEnd != -1 && jsonEnd > jsonStart {
        var potential := content[jsonStart..jsonEnd + 1];
        assert direct == Some(potential);
        if HasAgentKey(potential) {
          return potential;
        }
      }
    }
    assert !(direct.Some? && HasAgentKey(direct.value));
    var fallback := RegexBraceMatch(content);
    if fallback.Some? && HasFallbackKey(fallback.value) {
      return fallback.value;
    }
    var isReasoningOnly := |content| > 10000 && jsonStart == -1
      && exists k :: 0 <= k < |ReasoningPhrases| && Contains(lowered, ReasoningPhrases[k]);
    if isReasoningOnly {
      return content;
    }
    return content;
  }

  /** `int(x * 0.8)`: four fifths, truncated toward zero. */
  function FourFifths(x: int): (r: int)
    ensures x >= 0 ==> 0 <= r <= x
    ensures x <= 0 ==> x <= r <= 0
  {
    if x >= 0 then x * 4 / 5 else -((-x) * 4 / 5)
  }

  /** The room left for the answer: the context limit minus a quarter of the prompt length. */
  function AvailableTokens(contextLimit: int, systemPrompt: String, userPrompt: String): int {
    contextLimit - |systemPrompt + userPrompt| / 4
  }

  /**
   * The `max_tokens` sent with the request. An auto-sized value lies in
   * [512, 16384]; a caller's value is kept when it fits and otherwise
   * replaced by four fifths of the room, but never below 512, so it still
   * overshoots when the room is under 512.
   */
  function SizeMaxTokens(requested: Option<int>, available: int): (r: int)
    ensures requested.None? ==> 512 <= r <= 16384
    ensures requested.None? && 640 <= available <= 20480 ==> r == FourFifths(available)
    ensures requested.Some? && requested.value <= available ==> r == requested.value
    ensures requested.Some? && requested.value > available ==> r >= 512 && (r <= available <==> available >= 512)
  {
    match requested
    case None =>
      var scaled := FourFifths(available);
      var capped := if scaled < 16384 then scaled else 16384;
      if capped > 512 then capped else 512
    case Some(m) =>
      if m > available then
        var scaled := FourFifths(available);
        if scaled > 512 then scaled else 512
      else m
  }

  /** `s * n` for a string. */
  function Repeat(s: String, n: nat): (r: String)
    ensures |r| == |s| * n
  {
    if n == 0 then [] else s + Repeat(s, n - 1)
  }

  lemma {:induction false} CountRepeat(n: nat)
    ensures CountChar(Repeat("\n}", n), '}') == n
    ensures CountChar(Repeat("\n}", n), '{') == 0
    ensures CountChar(Repeat("\n}", n), '[') == 0
  {
    if n > 0 {
      CountRepeat(n - 1);
      CountCharAppend("\n}", Repeat("\n}", n - 1), '}');
      CountCharAppend("\n}", Repeat("\n}", n - 1), '{');
      CountCharAppend("\n}", Repeat("\n}", n - 1), '[');
      assert ("\n}")[..1] == "\n";
    }
  }

  lemma {:induction false} CountInSpace(s: String, c: char)
    requires AllSpace(s) && !IsSpace(c)
    ensures CountChar(s, c) == 0
    decreases |s|
  {
    if |s| > 0 {
      CountInSpace(s[..|s| - 1], c);
    }
  }

  /** Trailing whitespace holds no braces or brackets. */
  lemma RStripKeepsCount(s: String, c: char)
    requires !IsSpace(c)
    ensures CountChar(RStrip(s), c) == CountChar(s, c)
  {
    var t := RStrip(s);
    assert s == t + s[|t|..];
    CountCharAppend(t, s[|t|..], c);
    CountInSpace(s[|t|..], c);
  }

  /** The repair condition: the server cut the answer and it does not end in `}`. */
  predicate NeedsRepair(content: String, finishReason: String) {
    finishReason == "length" && !EndsWith(RStrip(content), "}")
  }

  /** Brace repair of an answer the server cut at the token limit. */
  function RepairTruncated(content: String, finishReason: String): String {
    if NeedsRepair(content, finishReason) then
      var t := RStrip(content);
      var opens := CountChar(t, '{');
      var closes := CountChar(t, '}');
      if opens > closes then t + Repeat("\n}", opens - closes) else t
    else content
  }

  /**
   * A repaired answer has as many `}` as `{` whenever it had no surplus `}`;
   * its `{` and `[` counts never change, and an answer that needs no repair
   * is returned as is.
   */
  lemma RepairBalancesBraces(content: String, finishReason: String)
    ensures var r := RepairTruncated(content, finishReason);
      && CountChar(r, '{') == CountChar(content, '{')
      && CountChar(r, '[') == CountChar(content, '[')
      && (NeedsRepair(content, finishReason) && CountChar(content, '{') >= CountChar(content, '}')
          ==> CountChar(r, '}') == CountChar(r, '{'))
      && (!NeedsRepair(content, finishReason) ==> r == content)
  {
    var t := RStrip(content);
    RStripKeepsCount(content, '{');
    RStripKeepsCount(content, '}');
    RStripKeepsCount(content, '[');
    if NeedsRepair(content, finishReason) {
      var opens := CountChar(t, '{');
      var closes := CountChar(t, '}');
      if opens > closes {
        CountRepeat(opens - closes);
        CountCharAppend(t, Repeat("\n}", opens - closes), '{');
        CountCharAppend(t, Repeat("\n}", opens - closes), '}');
        CountCharAppend(t, Repeat("\n}", opens - closes), '[');
      }
    }
  }

  /** What one chat-completion call produced. */
  datatype Outcome =
    | Completed(content: String, finishReason: String)
    | StatusError(code: int, message: String)
    | OtherError(message: String)

  predicate IsUnavailable(o: Outcome) {
    o.StatusError? && o.code == 503
  }

  /** Why the retry loop stopped. */
  datatype Stop =
    | Answered(content: String, finishReason: String)
    | GaveUp(attempts: int)
    | Rejected(code: int, message: String)
    | Crashed(message: String)
    | NoAttempt

  /** The error a failed request raises. */
  datatype CallError =
    | Unavailable(attempts: int)
    | ApiStatus(code: int, message: String)
    | Connection(message: String)
    | UndefinedName(name: String)
    | UnknownError

  /** The wait before attempt `k + 1`: the initial delay doubled `k` times. */
  function Pow2(k: nat): nat {
    if k == 0 then 1 else 2 * Pow2(k - 1)
  }

  function Backoff(initialDelayMs: nat, n: nat): (delays: seq<nat>)
    ensures |delays| == n
    ensures forall k :: 0 <= k < n ==> delays[k] == initialDelayMs * Pow2(k)
  {
    seq(n, k requires 0 <= k < n => initialDelayMs * Pow2(k))
  }

  /**
   * The request loop: up to `maxRetries` calls, where only a 503 answer is
   * retried, after sleeping `initialDelayMs * 2^attempt`, and never after the
   * last attempt. `outcomes[k]` is what call `k` produced.
   */
  method RequestWithRetry(outcomes: seq<Outcome>, maxRetries: int, initialDelayMs: nat)
    returns (stop: Stop, calls: nat, delays: seq<nat>)
    requires maxRetries <= |outcomes|
    ensures maxRetries <= 0 ==> calls == 0 && stop == NoAttempt
    ensures maxRetries > 0 ==> 1 <= calls <= maxRetries
    ensures forall k :: 0 <= k < calls - 1 ==> IsUnavailable(outcomes[k])
    ensures calls > 0 && IsUnavailable(outcomes[calls - 1]) ==> calls == maxRetries && stop == GaveUp(maxRetries)
    ensures calls > 0 && !IsUnavailable(outcomes[calls - 1]) ==> stop == Settle(outcomes[calls - 1])
    ensures delays == Backoff(initialDelayMs, if calls == 0 then 0 else calls - 1)
    ensures calls <= |outcomes| && stop == StopOf(outcomes, calls, maxRetries)
  {
    var attempt := 0;
    calls := 0;
    delays := [];
    stop := NoAttempt;
    while attempt < maxRetries
      invariant 0 <= attempt && calls == attempt
      invariant attempt == 0 || attempt < maxRetries
      invariant forall k :: 0 <= k < attempt ==> IsUnavailable(outcomes[k])
      invariant delays == Backoff(initialDelayMs, attempt)
      invariant stop == NoAttempt
    {
      var o := outcomes[attempt];
      calls := calls + 1;
      if o.Completed? {
        return Answered(o.content, o.finishReason), calls, delays;
      } else if o.StatusError? {
        if o.code == 503 {
          if attempt < maxRetries - 1 {
            delays := delays + [initialDelayMs * Pow2(attempt)];
            attempt := attempt + 1;
            continue;
          } else {
            return GaveUp(maxRetries), calls, delays;
          }
        } else {
          return Rejected(o.code, o.message), calls, delays;
        }
      } else {
        return Crashed(o.message), calls, delays;
      }
    }
  }

  function Settle(o: Outcome): Stop {
    match o
    case Completed(c, f) => Answered(c, f)
    case StatusError(code, m) => Rejected(code, m)
    case OtherError(m) => Crashed(m)
  }

  /**
   * Why a loop that made `calls` calls over `outcomes` stopped: no call at
   * all, the last 503 after the final attempt, or the last call's outcome.
   */
  function StopOf(outcomes: seq<Outcome>, calls: nat, maxRetries: int): Stop
    requires calls <= |outcomes|
  {
    if calls == 0 then NoAttempt
    else if IsUnavailable(outcomes[calls - 1]) then GaveUp(maxRetries)
    else Settle(outcomes[calls - 1])
  }

  /**
   * The error raised for a failed request, as the code is written: the
   * handler for non-API errors formats `base_url`, which only exists inside
   * the constructor, so it raises a NameError instead of re-raising.
   */
  function RaisedAsWritten(stop: Stop): (e: Option<CallError>)
    ensures stop.Crashed? ==> e == Some(UndefinedName("base_url"))
  {
    match stop
    case Answered(_, _) => None
    case GaveUp(n) => Some(Unavailable(n))
    case Rejected(code, m) => Some(ApiStatus(code, m))
    case Crashed(_) => Some(UndefinedName("base_url"))
    case NoAttempt => Some(UnknownError)
  }

  /** The error raised for a failed request, with the connection error re-raised as intended. */
  function Raised(stop: Stop): (e: Option<CallError>)
    ensures e.None? <==> stop.Answered?
    ensures stop.Crashed? ==> e == Some(Connection(stop.message))
    ensures stop.Rejected? ==> e == Some(ApiStatus(stop.code, stop.message))
  {
    match stop
    case Answered(_, _) => None
    case GaveUp(n) => Some(Unavailable(n))
    case Rejected(code, m) => Some(ApiStatus(code, m))
    case Crashed(m) => Some(Connection(m))
    case NoAttempt => Some(UnknownError)
  }

  /** As written, a connection error's own message never reaches the caller. */
  lemma ConnectionErrorMasked(m: String)
    ensures RaisedAsWritten(Crashed(m)) != Raised(Crashed(m))
    ensures RaisedAsWritten(Crashed(m)) == Some(UndefinedName("base_url"))
  {
  }

  /** What `chat.completions.create` receives. */
  datatype ChatRequest = ChatRequest(
    systemPrompt: String, userPrompt: String, maxTokens: int, withResponseFormat: bool)

  datatype Generation = Generation(request: ChatRequest, calls: nat, delays: seq<nat>, result: Result<String>)

  function DescribeError(e: CallError): String {
    match e
    case Unavailable(n) => "vLLM server unavailable after " + IntToString(n) + " attempts. The server is still warming up. Please wait a minute and try again."
    case ApiStatus(_, m) => m
    case Connection(m) => m
    case UndefinedName(n) => "name '" + n + "' is not defined"
    case UnknownError => "Unknown error during API call"
  }

  /**
   * `CustomLLMClient.generate_with_system_prompt`: size `max_tokens`, run the
   * retry loop, repair a truncated answer, then extract the response.
   */
  method GenerateWithSystemPrompt(
    systemPrompt: String, userPrompt: String, responseFormat: bool, maxTokens: Option<int>,
    maxRetries: int, initialDelayMs: nat, contextLimit: int, outcomes: seq<Outcome>)
    returns (g: Generation)
    requires maxRetries <= |outcomes|
    ensures g.request.maxTokens == SizeMaxTokens(maxTokens, AvailableTokens(contextLimit, systemPrompt, userPrompt))
    ensures g.request.systemPrompt == systemPrompt && g.request.userPrompt == userPrompt
    ensures g.request.withResponseFormat == responseFormat
    ensures maxRetries > 0 ==> 1 <= g.calls <= maxRetries
    ensures maxRetries <= 0 ==> g.calls == 0 && g.result == Err("Unknown error during API call")
    ensures g.calls <= |outcomes|
    ensures forall k :: 0 <= k < g.calls - 1 ==> IsUnavailable(outcomes[k])
    ensures g.delays == Backoff(initialDelayMs, if g.calls == 0 then 0 else g.calls - 1)
    ensures g.calls > 0 && IsUnavailable(outcomes[g.calls - 1]) ==> g.calls == maxRetries
    ensures Raised(StopOf(outcomes, g.calls, maxRetries)).Some? ==>
      g.result == Err(DescribeError(Raised(StopOf(outcomes, g.calls, maxRetries)).value))
    ensures g.result.Ok? ==>
      g.calls > 0 && outcomes[g.calls - 1].Completed? && g.result.value == Extract(RepairTruncated(outcomes[g.calls - 1].content, outcomes[g.calls - 1].finishReason))
    ensures g.calls > 0 && outcomes[g.calls - 1].Completed? ==> g.result.Ok?
  {
    var available := AvailableTokens(contextLimit, systemPrompt, userPrompt);
    var request := ChatRequest(systemPrompt, userPrompt, SizeMaxTokens(maxTokens, available), responseFormat);
    var stop, calls, delays := RequestWithRetry(outcomes, maxRetries, initialDelayMs);
    var result := Conclude(stop);
    g := Generation(request, calls, delays, result);
  }

  /**
   * The end of `generate_with_system_prompt`: a failed loop raises its error,
   * an answer is repaired if truncated and then extracted.
   */
  method Conclude(stop: Stop) returns (result: Result<String>)
    ensures Raised(stop).Some? ==> result == Err(DescribeError(Raised(stop).value))
    ensures stop.Answered? ==> result == Ok(Extract(RepairTruncated(stop.content, stop.finishReason)))
  {
    var raised := Raised(stop);
    if raised.Some? {
      result := Err(DescribeError(raised.value));
    } else {
      var content := RepairTruncated(stop.content, stop.finishReason);
      var extracted := ExtractFromReasoningOutput(content);
      result := Ok(extracted);
    }
  }

  datatype Provider = Gemini | Claude | Custom

  datatype ClientConfig = ClientConfig(provider: Provider, modelName: String)

  /** `os.getenv(name)` treated as a truth value: set and non-empty. */
  predicate EnvSet(env: map<String, String>, name: String) {
    name in env && env[name] != []
  }

  function EnvOr(env: map<String, String>, name: String, default: String): String {
    if name in env then env[name] else default
  }

  function ModelOr(modelName: Option<String>, env: map<String, String>, name: String, default: String): String {
    if modelName.Some? && modelName.value != [] then modelName.value else EnvOr(env, name, default)
  }

  /**
   * `get_llm_client`: the provider name is matched case-insensitively; each
   * client needs its API key (and the custom one its base URL) in the
   * environment; an explicit model name wins over the environment default.
   */
  function GetLlmClient(provider: String, modelName: Option<String>, env: map<String, String>): (r: Result<ClientConfig>)
    ensures r.Ok? ==> Lower(provider) in {"gemini", "claude", "custom"}
    ensures r.Ok? && modelName.Some? && modelName.value != [] ==> r.value.modelName == modelName.value
    ensures Lower(provider) == "custom" ==> (r.Ok? <==> EnvSet(env, "CUSTOM_LLM_API_KEY") && EnvSet(env, "CUSTOM_LLM_BASE_URL"))
    ensures Lower(provider) == "gemini" ==> (r.Ok? <==> EnvSet(env, "GEMINI_API_KEY"))
    ensures Lower(provider) == "claude" ==> (r.Ok? <==> EnvSet(env, "ANTHROPIC_API_KEY"))
  {
    var p := Lower(provider);
    if p == "gemini" then
      if !EnvSet(env, "GEMINI_API_KEY") then Err("GEMINI_API_KEY not found in environment variables")
      else Ok(ClientConfig(Gemini, ModelOr(modelName, env, "GEMINI_MODEL", "gemini-2.0-flash-exp")))
    else if p == "claude" then
      if !EnvSet(env, "ANTHROPIC_API_KEY") then Err("ANTHROPIC_API_KEY not found in environment variables")
      else Ok(ClientConfig(Claude, ModelOr(modelName, env, "CLAUDE_MODEL", "claude-3-5-sonnet-20241022")))
    else if p == "custom" then
      if !EnvSet(env, "CUSTOM_LLM_API_KEY") then Err("CUSTOM_LLM_API_KEY not found in environment variables")
      else if !EnvSet(env, "CUSTOM_LLM_BASE_URL") then Err("CUSTOM_LLM_BASE_URL not found in environment variables")
      else Ok(ClientConfig(Custom, ModelOr(modelName, env, "CUSTOM_LLM_MODEL", "default-model")))
    else Err("Unsupported LLM provider: " + p)
  }

  /** `[m.strip() for m in parts if m.strip()]`. */
  function KeepNonBlank(parts: seq<String>): (r: seq<String>)
    ensures |r| <= |parts|
    ensures forall k :: 0 <= k < |r| ==> r[k] != []
  {
    if |parts| == 0 then []
    else
      var m := Strip(parts[0]);
      (if m != [] then [m] else []) + KeepNonBlank(parts[1..])
  }

  /** A comma-separated model list from the environment. */
  function ParseModelList(s: String): seq<String> {
    KeepNonBlank(Split(s, ','))
  }

  /** A name that survives the list parsing unchanged. */
  predicate PlainName(m: String) {
    m != [] && !IsSpace(m[0]) && !IsSpace(m[|m| - 1]) && ',' !in m
  }

  lemma PlainStrip(m: String)
    requires PlainName(m)
    ensures Strip(m) == m
  {
    assert RStrip(m) == m;
    assert LStrip(m) == m;
  }

  lemma FindCharBeyond(m: String, rest: String, c: char)
    requires c !in m
    ensures Find(m + [c] + rest, [c]) == |m|
  {
    var s := m + [c] + rest;
    assert s[|m|..|m| + 1] == [c];
    assert OccursAt(s, [c], |m|);
    forall k | 0 <= k < |m| ensures !OccursAt(s, [c], k) {
      assert s[k] == m[k];
      assert s[k..k + 1] == [s[k]];
    }
  }

  lemma {:induction false} SplitJoin(ms: seq<String>)
    requires |ms| > 0 && forall k :: 0 <= k < |ms| ==> ',' !in ms[k]
    ensures Split(Join(",", ms), ',') == ms
    decreases |ms|
  {
    if |ms| == 1 {
      FindAbsentChar(ms[0], ',');
      assert ms == [ms[0]];
    } else {
      var rest := Join(",", ms[1..]);
      FindCharBeyond(ms[0], rest, ',');
      assert Join(",", ms) == ms[0] + [','] + rest;
      assert (ms[0] + [','] + rest)[|ms[0]| + 1..] == rest;
      assert (ms[0] + [','] + rest)[..|ms[0]|] == ms[0];
      SplitJoin(ms[1..]);
    }
  }

  lemma {:induction false} KeepPlain(ms: seq<String>)
    requires forall k :: 0 <= k < |ms| ==> PlainName(ms[k])
    ensures KeepNonBlank(ms) == ms
    decreases |ms|
  {
    if |ms| > 0 {
      PlainStrip(ms[0]);
      KeepPlain(ms[1..]);
    }
  }

  /** Writing a list of plain model names comma-separated and parsing it back gives the list. */
  lemma ModelListRoundTrip(ms: seq<String>)
    requires |ms| > 0 && forall k :: 0 <= k < |ms| ==> PlainName(ms[k])
    ensures ParseModelList(Join(",", ms)) == ms
  {
    SplitJoin(ms);
    KeepPlain(ms);
  }

  const DefaultGeminiModels: seq<String> := ["gemini-2.0-flash-exp", "gemini-1.5-pro", "gemini-1.5-flash"]
  const DefaultClaudeModels: seq<String> := ["claude-3-5-sonnet-20241022", "claude-3-5-haiku-20241022", "claude-3-opus-20240229"]

  /**
   * `get_available_models`: a non-empty environment list wins over the
   * defaults; the custom provider falls back to `CUSTOM_LLM_MODEL`, then to
   * "custom-model".
   */
  function GetAvailableModels(env: map<String, String>): (r: map<String, seq<String>>)
    ensures r.Keys == {"gemini", "claude", "custom"}
    ensures r["gemini"] == if EnvSet(env, "GEMINI_MODELS") then ParseModelList(env["GEMINI_MODELS"]) else DefaultGeminiModels
    ensures r["claude"] == if EnvSet(env, "CLAUDE_MODELS") then ParseModelList(env["CLAUDE_MODELS"]) else DefaultClaudeModels
    ensures EnvSet(env, "CUSTOM_MODELS") ==> r["custom"] == ParseModelList(env["CUSTOM_MODELS"])
    ensures !EnvSet(env, "CUSTOM_MODELS") ==>
      r["custom"] == if EnvSet(env, "CUSTOM_LLM_MODEL") then [env["CUSTOM_LLM_MODEL"]] else ["custom-model"]
  {
    var custom :=
      if EnvSet(env, "CUSTOM_MODELS") then ParseModelList(env["CUSTOM_MODELS"])
      else if EnvSet(env, "CUSTOM_LLM_MODEL") then [env["CUSTOM_LLM_MODEL"]]
      else ["custom-model"];
    map["gemini" := if EnvSet(env, "GEMINI_MODELS") then ParseModelList(env["GEMINI_MODELS"]) else DefaultGeminiModels,
        "claude" := if EnvSet(env, "CLAUDE_MODELS") then ParseModelList(env["CLAUDE_MODELS"]) else DefaultClaudeModels,
        "custom" := custom]
  }
}
