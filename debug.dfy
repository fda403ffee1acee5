/**
 * The debug log of LLM calls (`utils/debug.py`): a capture object that,
 * while enabled, records one entry per call, and the display formatting of
 * an entry.  Timestamps come in as parameters; temperature and duration are
 * floats and are not part of the model.
 */
module Debug {
  import opened Wrappers
  import opened Text

  /** One captured call, with the two lengths the capture computes. */
  datatype Interaction = Interaction(
    timestamp: String,
    provider: String,
    model: String,
    systemPrompt: String,
    userPrompt: String,
    response: Option<String>,
    error: Option<String>,
    combinedPromptLength: nat,
    responseLength: nat)

  /** The record `capture_llm_call` appends; a missing or empty response has length 0. */
  function InteractionOf(timestamp: String, provider: String, model: String, systemPrompt: String,
                         userPrompt: String, response: Option<String>, error: Option<String>): (x: Interaction)
    ensures x.combinedPromptLength == |systemPrompt| + |userPrompt|
    ensures x.response == response && (response.None? ==> x.responseLength == 0)
    ensures response.Some? ==> x.responseLength == |response.value|
  {
    var responseLength := match response
      case Some(r) => |r|
      case None => 0;
    Interaction(timestamp, provider, model, systemPrompt, userPrompt, response, error,
                |systemPrompt| + |userPrompt|, responseLength)
  }

  /** Python's `s[:n]`: the first `n` characters, or all but the last `-n` when `n` is negative. */
  function Truncate(s: String, n: int): (r: String)
    ensures r <= s
    ensures n >= 0 ==> |r| == (if n < |s| then n else |s|)
    ensures n < 0 ==> |r| == (if -n < |s| then |s| + n else 0)
  {
    if n >= 0 then (if n < |s| then s[..n] else s)
    else if -n < |s| then s[..|s| + n] else []
  }

  /** The text fields of `format_for_display`; the temperature and duration strings are floats and left out. */
  datatype Display = Display(
    timestamp: String,
    provider: String,
    model: String,
    systemPrompt: String,
    userPrompt: String,
    response: String,
    error: Option<String>,
    promptChars: nat,
    responseChars: nat)

  /**
   * `format_for_display`: the provider upper-cased and the prompts and the
   * response cut to `maxLength`; a record whose response is None fails,
   * since Python cannot slice None.
   */
  function FormatForDisplay(x: Interaction, maxLength: int): (r: Result<Display>)
    ensures r.Err? <==> x.response.None?
    ensures r.Ok? ==> r.value.provider == Upper(x.provider) && r.value.model == x.model
    ensures r.Ok? ==> r.value.promptChars == x.combinedPromptLength && r.value.responseChars == x.responseLength
  {
    match x.response
    case None => Err("'NoneType' object is not subscriptable")
    case Some(response) =>
      Ok(Display(x.timestamp, Upper(x.provider), x.model, Truncate(x.systemPrompt, maxLength),
                 Truncate(x.userPrompt, maxLength), Truncate(response, maxLength), x.error,
                 x.combinedPromptLength, x.responseLength))
  }

  /**
   * With a non-negative `maxLength`, each displayed text is a prefix of the
   * recorded one, at most `maxLength` long, and all of it when it fits.
   */
  lemma DisplayTruncates(x: Interaction, maxLength: nat)
    requires x.response.Some?
    ensures var d := FormatForDisplay(x, maxLength).value;
      && d.systemPrompt <= x.systemPrompt && |d.systemPrompt| <= maxLength
      && d.userPrompt <= x.userPrompt && |d.userPrompt| <= maxLength
      && d.response <= x.response.value && |d.response| <= maxLength
      && (|x.systemPrompt| <= maxLength ==> d.systemPrompt == x.systemPrompt)
      && (|x.userPrompt| <= maxLength ==> d.userPrompt == x.userPrompt)
      && (|x.response.value| <= maxLength ==> d.response == x.response.value)
  {
  }

  /** `LLMInteractionCapture`: the interactions captured so far, and whether capture is on. */
  class LLMInteractionCapture {
    var interactions: seq<Interaction>
    var enabled: bool

    /** A new capture is off and empty. */
    constructor ()
      ensures interactions == [] && !enabled
    {
      interactions := [];
      enabled := false;
    }

    method Enable()
      modifies this
      ensures enabled && interactions == old(interactions)
    {
      enabled := true;
    }

    method Disable()
      modifies this
      ensures !enabled && interactions == old(interactions)
    {
      enabled := false;
    }

    /** `capture_llm_call`: one more record while enabled, nothing otherwise. */
    method CaptureLlmCall(timestamp: String, provider: String, model: String, systemPrompt: String,
                          userPrompt: String, response: Option<String>, error: Option<String>)
      modifies this
      ensures enabled == old(enabled)
      ensures old(enabled) ==> interactions == old(interactions) + [InteractionOf(timestamp, provider, model, systemPrompt, userPrompt, response, error)]
      ensures !old(enabled) ==> interactions == old(interactions)
      ensures old(enabled) ==> LastInteraction() == Some(InteractionOf(timestamp, provider, model, systemPrompt, userPrompt, response, error))
    {
      if !enabled {
        return;
      }
      var interaction := InteractionOf(timestamp, provider, model, systemPrompt, userPrompt, response, error);
      interactions := interactions + [interaction];
    }

    /** `get_last_interaction`: the newest record, or None when there is none. */
    function LastInteraction(): (r: Option<Interaction>)
      reads this
      ensures r.None? <==> interactions == []
      ensures r.Some? ==> r.value in interactions && r.value == interactions[|interactions| - 1]
    {
      if interactions == [] then None else Some(interactions[|interactions| - 1])
    }

    /** `clear`: no records; the flag is kept. */
    method Clear()
      modifies this
      ensures interactions == [] && enabled == old(enabled)
      ensures LastInteraction().None?
    {
      interactions := [];
    }
  }
}
