/** The text-playground adapter for AI21 Jurassic-2 Mid: a plain completion
    request, answered by the first completion's text with one leading newline
    dropped. */
module Jurassic2 {
  import opened Values
  import opened Bedrock

  const ModelId := "ai21.j2-mid-v1"

  /** A completion request as the adapter fills it in. */
  datatype CompletionRequest = CompletionRequest(prompt: string, maxTokens: int, temperature: real)

  /** `{"prompt": ..., "maxTokens": ..., "temperature": ...}` and nothing else. */
  function Encode(req: CompletionRequest): (body: Value)
    ensures body.Dict? && body.fields.Keys == {"prompt", "maxTokens", "temperature"}
  {
    Dict(map["prompt" := Str(req.prompt), "maxTokens" := Int(req.maxTokens),
             "temperature" := Float(req.temperature)])
  }

  /** Reads a completion body back; anything but exactly those three fields, of
      those types, is not one. */
  function Decode(body: Value): Option<CompletionRequest> {
    if body.Dict? && body.fields.Keys == {"prompt", "maxTokens", "temperature"}
       && body.fields["prompt"].Str? && body.fields["maxTokens"].Int?
       && body.fields["temperature"].Float?
    then Some(CompletionRequest(body.fields["prompt"].s, body.fields["maxTokens"].i,
                                body.fields["temperature"].r))
    else None
  }

  lemma DecodeEncode(req: CompletionRequest)
    ensures Decode(Encode(req)) == Some(req)
  {
  }

  /** The one request `invoke` sends: always to the Jurassic model, each field
      equal to its argument. */
  function Request(prompt: string, temperature: real, maxTokens: int): (c: Call)
    ensures c.modelId == ModelId
    ensures Decode(c.body) == Some(CompletionRequest(prompt, maxTokens, temperature))
  {
    DecodeEncode(CompletionRequest(prompt, maxTokens, temperature));
    Call(ModelId, Encode(CompletionRequest(prompt, maxTokens, temperature)))
  }

  /** `completion[1:]` when the completion starts with a newline. Exactly one
      newline goes: `s` is that newline, if any, followed by the result. */
  function DropLeadingNewline(s: string): (r: string)
    ensures s == (if |s| > 0 && s[0] == '\n' then "\n" else "") + r
    ensures |r| == (if |s| > 0 && s[0] == '\n' then |s| - 1 else |s|)
  {
    if |s| > 0 && s[0] == '\n' then s[1..] else s
  }

  /** Text that does not start with a newline is returned unchanged. */
  lemma NoLeadingNewlineUnchanged(s: string)
    requires s == [] || s[0] != '\n'
    ensures DropLeadingNewline(s) == s
  {
  }

  /** Prepending a newline is undone exactly. */
  lemma DropUndoesNewline(t: string)
    ensures DropLeadingNewline("\n" + t) == t
  {
  }

  /** Only one newline is removed, so the normalisation is not idempotent. */
  lemma NotIdempotent()
    ensures DropLeadingNewline("\n\nX") == "\nX"
    ensures DropLeadingNewline(DropLeadingNewline("\n\nX")) == "X"
  {
    DropUndoesNewline("\nX");
    DropUndoesNewline("X");
  }

  /** The completion text, then the newline normalisation. A text that is not a
      string fails at `.startswith` with Python's AttributeError. */
  function ParseCompletion(response: Value): (r: Outcome<string>)
    ensures r.Ok? <==> (FieldFirstField(response, "completions", "data").Ok?
      && Item(FieldFirstField(response, "completions", "data").value, "text").Ok?
      && Item(FieldFirstField(response, "completions", "data").value, "text").value.Str?)
    ensures r.Ok? ==>
      r.value == DropLeadingNewline(Item(FieldFirstField(response, "completions", "data").value, "text").value.s)
  {
    var text: Outcome<Value> := Then(FieldFirstField(response, "completions", "data"), (d: Value) => Item(d, "text"));
    match text
    case Raised(f) => Raised(f)
    case Ok(Str(s)) => Ok(DropLeadingNewline(s))
    case Ok(v) => Raised(Exception("AttributeError", "'" + TypeName(v) + "' object has no attribute 'startswith'"))
  }

  /** `invoke(prompt, temperature, max_tokens)`: any failure of the call or of
      the extraction is re-raised as it is. */
  function Invoke(prompt: string, temperature: real, maxTokens: int, runtime: Runtime): (r: Outcome<string>)
    ensures runtime(Request(prompt, temperature, maxTokens)).Raised? ==>
      r == Raised(runtime(Request(prompt, temperature, maxTokens)).failure)
    ensures runtime(Request(prompt, temperature, maxTokens)).Ok? ==>
      r == ParseCompletion(runtime(Request(prompt, temperature, maxTokens)).value)
  {
    Then(runtime(Request(prompt, temperature, maxTokens)), ParseCompletion)
  }

  /** An answer whose text starts with "\nHello" gives "Hello". */
  lemma ParsesHello()
    ensures ParseCompletion(Dict(map["completions" := List([
      Dict(map["data" := Dict(map["text" := Str("\nHello")])])])])) == Ok("Hello")
  {
    var d := Dict(map["data" := Dict(map["text" := Str("\nHello")])]);
    var resp := Dict(map["completions" := List([d])]);
    FieldFirstFieldOk(resp, "completions", "data");
    DropUndoesNewline("Hello");
  }
}
