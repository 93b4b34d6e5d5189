/** The chat-playground service: a Messages request with fixed limits and a fixed
    system prompt, answered by the first content block's text. */
module ChatServices {
  import opened Values
  import opened Bedrock
  import Messages

  const ModelId := "anthropic.claude-3-5-sonnet-20241022-v2:0"
  const MaxTokens := 1024
  const Temperature := 0.8

  /** The triple-quoted system prompt, with its line breaks and indentation. */
  const SystemPrompt :=
    "\n"
    + "                    Take the role of a friendly chat bot. Your responses are brief.\n"
    + "                    You sometimes use emojis where appropriate, but you don't overdo it.\n"
    + "                    You engage human in a dialog by regularly asking questions,\n"
    + "                    except when Human indicates that the conversation is over.\n"
    + "                   "

  /** The one request `invoke` sends: only the prompt comes from the caller. */
  function Request(prompt: string): (c: Call)
    ensures c.modelId == ModelId
    ensures Messages.Decode(c.body) ==
      Some(Messages.MessagesRequest(MaxTokens, Temperature, Some(SystemPrompt), prompt))
  {
    var req := Messages.MessagesRequest(MaxTokens, Temperature, Some(SystemPrompt), prompt);
    Messages.DecodeEncode(req);
    Call(ModelId, Messages.Encode(req))
  }

  /** Two prompts give the same request only if they are the same prompt, and
      every request carries the same limits and system prompt. */
  lemma RequestDependsOnlyOnPrompt(p1: string, p2: string)
    ensures Request(p1) == Request(p2) <==> p1 == p2
    ensures Request(p1).body.fields["max_tokens"] == Request(p2).body.fields["max_tokens"] == Int(1024)
    ensures Request(p1).body.fields["system"] == Request(p2).body.fields["system"] == Str(SystemPrompt)
  {
    if Request(p1) == Request(p2) {
      Messages.EncodeInjective(
        Messages.MessagesRequest(MaxTokens, Temperature, Some(SystemPrompt), p1),
        Messages.MessagesRequest(MaxTokens, Temperature, Some(SystemPrompt), p2));
    }
  }

  /** `invoke(prompt)`: the answer's `content[0].text`, or what was raised. */
  function Invoke(prompt: string, runtime: Runtime): (r: Outcome<Value>)
    ensures runtime(Request(prompt)).Raised? ==> r == runtime(Request(prompt))
    ensures runtime(Request(prompt)).Ok? ==> r == Messages.ContentText(runtime(Request(prompt)).value)
  {
    Then(runtime(Request(prompt)), Messages.ContentText)
  }
}
