/** The request body of the Anthropic Messages API on Bedrock, which three of the
    adapters build (the text-playground Claude adapter, the chat service and the
    story service), and the one field they read back from the answer. */
module Messages {
  import opened Values

  const AnthropicVersion := "bedrock-2023-05-31"

  /** What a Messages request carries; `system` is absent unless given. */
  datatype MessagesRequest = MessagesRequest(
    maxTokens: int, temperature: real, system: Option<string>, prompt: string)

  /** `{"role": "user", "content": prompt}`. */
  function UserMessage(prompt: string): Value {
    Dict(map["role" := Str("user"), "content" := Str(prompt)])
  }

  /** The request body: the version tag, the two limits, the system prompt when
      there is one, and a single user message. */
  function Encode(req: MessagesRequest): (body: Value)
    ensures body.Dict?
    ensures body.fields.Keys ==
      {"anthropic_version", "max_tokens", "temperature", "messages"}
      + (if req.system.Some? then {"system"} else {})
  {
    var base := map[
      "anthropic_version" := Str(AnthropicVersion),
      "max_tokens" := Int(req.maxTokens),
      "temperature" := Float(req.temperature),
      "messages" := List([UserMessage(req.prompt)])];
    match req.system
    case None => Dict(base)
    case Some(s) => Dict(base["system" := Str(s)])
  }

  /** How the model service reads such a body: the version must be the expected
      one, there must be exactly one message and it must be the user's. */
  function Decode(body: Value): Option<MessagesRequest> {
    if !body.Dict? then None
    else
      var f := body.fields;
      if !("anthropic_version" in f && "max_tokens" in f && "temperature" in f && "messages" in f) then None
      else if f["anthropic_version"] != Str(AnthropicVersion) then None
      else if !(f["max_tokens"].Int? && f["temperature"].Float?) then None
      else if !(f["messages"].List? && |f["messages"].items| == 1) then None
      else
        var m := f["messages"].items[0];
        if !(m.Dict? && m.fields.Keys == {"role", "content"}) then None
        else if !(m.fields["role"] == Str("user") && m.fields["content"].Str?) then None
        else if "system" in f && !f["system"].Str? then None
        else if f.Keys - {"system"} != {"anthropic_version", "max_tokens", "temperature", "messages"} then None
        else
          Some(MessagesRequest(
            f["max_tokens"].i, f["temperature"].r,
            if "system" in f then Some(f["system"].s) else None,
            m.fields["content"].s))
  }

  /** The body built from a request is read back as that same request. */
  lemma DecodeEncode(req: MessagesRequest)
    ensures Decode(Encode(req)) == Some(req)
  {
    var body := Encode(req);
    var m := UserMessage(req.prompt);
    assert m.fields.Keys == {"role", "content"};
    assert body.fields["messages"] == List([m]);
    assert body.fields.Keys - {"system"} == {"anthropic_version", "max_tokens", "temperature", "messages"};
  }

  /** Two requests never share a body. */
  lemma EncodeInjective(a: MessagesRequest, b: MessagesRequest)
    requires Encode(a) == Encode(b)
    ensures a == b
  {
    DecodeEncode(a);
    DecodeEncode(b);
  }

  /** `response_body['content'][0]['text']`. */
  function ContentText(response: Value): (r: Outcome<Value>)
    ensures r.Ok? <==>
      response.Dict? && "content" in response.fields && response.fields["content"].List?
      && |response.fields["content"].items| > 0 && response.fields["content"].items[0].Dict?
      && "text" in response.fields["content"].items[0].fields
    ensures r.Ok? ==> r.value == response.fields["content"].items[0].fields["text"]
  {
    FieldFirstFieldOk(response, "content", "text");
    FieldFirstField(response, "content", "text")
  }

  /** An answer with an empty `content` list is a failure, never a text. */
  lemma EmptyContentFails(response: Value)
    requires response.Dict? && "content" in response.fields && response.fields["content"] == List([])
    ensures ContentText(response) == Raised(Exception("IndexError", "list index out of range"))
  {
  }
}
