/**
 * The standalone Gemini wrapper: generation config, prompt combination and
 * the extraction it applies once inside `generate_content` and once more in
 * `generate_with_system_prompt`.
 */
module GeminiClient {
  import opened Text
  import opened Wrappers
  import opened ResponseExtraction

  /** The generation config; the temperature is not modelled. */
  datatype GenerationConfig = GenerationConfig(maxOutputTokens: Option<int>)

  /** What is handed to the model: one prompt and its config. */
  datatype Sent = Sent(prompt: String, config: GenerationConfig)

  /** `max_output_tokens` is set only for a truthy `max_tokens`. */
  function BuildConfig(maxTokens: Option<int>): (c: GenerationConfig)
    ensures c.maxOutputTokens.Some? <==> maxTokens.Some? && maxTokens.value != 0
    ensures c.maxOutputTokens.Some? ==> c.maxOutputTokens == maxTokens
  {
    if maxTokens.Some? && maxTokens.value != 0 then GenerationConfig(maxTokens) else GenerationConfig(None)
  }

  /**
   * `generate_content`: `reply` is the model's text or the error it raised;
   * errors are re-raised as "Error generating content: ...".
   */
  function GenerateContent(prompt: String, maxTokens: Option<int>, reply: Result<String>): (Sent, Result<String>) {
    var sent := Sent(prompt, BuildConfig(maxTokens));
    match reply
    case Ok(text) => (sent, Ok(Extract(text)))
    case Err(e) => (sent, Err("Error generating content: " + e))
  }

  /** `generate_with_system_prompt`: one combined prompt, then a second extraction pass. */
  function GenerateWithSystemPrompt(systemPrompt: String, userPrompt: String, reply: Result<String>): (Sent, Result<String>) {
    var combined := systemPrompt + "\n\n" + userPrompt;
    var (sent, content) := GenerateContent(combined, None, reply);
    (sent, if content.Ok? then Ok(Extract(content.value)) else content)
  }

  /**
   * The system and user prompts travel as one prompt joined by a blank line,
   * with no token cap; provider errors come back wrapped; the answer is a
   * piece of the model's text, and the second extraction pass changes
   * nothing unless the text carried a think block.
   */
  lemma SystemPromptRequest(systemPrompt: String, userPrompt: String, reply: Result<String>)
    ensures var (sent, res) := GenerateWithSystemPrompt(systemPrompt, userPrompt, reply);
      && sent.prompt == systemPrompt + "\n\n" + userPrompt
      && sent.config.maxOutputTokens.None?
      && (reply.Err? ==> res == Err("Error generating content: " + reply.error))
      && (reply.Ok? ==> res.Ok? && IsInfix(res.value, reply.value))
      && (reply.Ok? && !HasThinkBlock(reply.value) ==> res == Ok(Extract(reply.value)))
  {
    if reply.Ok? {
      var text := reply.value;
      ExtractIsInfix(text);
      ExtractIsInfix(Extract(text));
      InfixTrans(Extract(Extract(text)), Extract(text), text);
      if !HasThinkBlock(text) {
        ExtractTwice(text);
      }
    }
  }
}
