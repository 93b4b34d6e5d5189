/** The text-playground adapter for Claude 3.5 Sonnet v2: a Messages request
    without a system prompt, answered by the first content block's text. */
module Claude {
  import opened Values
  import opened Bedrock
  import Messages

  /** The id sent upstream. The text route matches a different id, with the
      cross-region `us.` prefix, before it calls this adapter. */
  const ModelId := "anthropic.claude-3-5-sonnet-20241022-v2:0"

  /** The one request `invoke` sends. */
  function Request(prompt: string, temperature: real, maxTokens: int): (c: Call)
    ensures c.modelId == ModelId
    ensures Messages.Decode(c.body) ==
      Some(Messages.MessagesRequest(maxTokens, temperature, None, prompt))
    ensures c.body.Dict? && "system" !in c.body.fields
  {
    var req := Messages.MessagesRequest(maxTokens, temperature, None, prompt);
    Messages.DecodeEncode(req);
    Call(ModelId, Messages.Encode(req))
  }

  /** `invoke(prompt, temperature, max_tokens)`: the answer's `content[0].text`,
      or whatever the call or the extraction raised. */
  function Invoke(prompt: string, temperature: real, maxTokens: int, runtime: Runtime): (r: Outcome<Value>)
    ensures runtime(Request(prompt, temperature, maxTokens)).Raised? ==>
      r == runtime(Request(prompt, temperature, maxTokens))
    ensures runtime(Request(prompt, temperature, maxTokens)).Ok? ==>
      r == Messages.ContentText(runtime(Request(prompt, temperature, maxTokens)).value)
  {
    Then(runtime(Request(prompt, temperature, maxTokens)), Messages.ContentText)
  }

  /** The adapter makes no call but the one above: two services that agree on
      that request give the same result. */
  lemma OnlyOneCall(prompt: string, temperature: real, maxTokens: int, rt1: Runtime, rt2: Runtime)
    requires rt1(Request(prompt, temperature, maxTokens)) == rt2(Request(prompt, temperature, maxTokens))
    ensures Invoke(prompt, temperature, maxTokens, rt1) == Invoke(prompt, temperature, maxTokens, rt2)
  {
  }
}
