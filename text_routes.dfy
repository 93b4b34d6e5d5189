/** The text-playground route `POST /foundation-models/model/text/{modelId}/invoke`:
    exact-match dispatch on the model id to one of two adapters, 400 for any
    other id, and the shared error policy for everything the adapters raise. */
module TextRoutes {
  import opened Values
  import opened Bedrock
  import opened RouteErrors
  import Claude
  import Jurassic2

  /** The two ids the route accepts. */
  const ClaudeRouteId := "us." + Claude.ModelId  // "us.anthropic.claude-3-5-sonnet-20241022-v2:0"
  const JurassicRouteId := "ai21.j2-mid-v1"

  predicate Supported(modelId: string) {
    modelId == ClaudeRouteId || modelId == JurassicRouteId
  }

  /** Building `TextResponse(completion=...)` from a completion that is not a
      string fails validation. */
  const NotAString := Exception("ValidationError", "completion: Input should be a valid string")

  /** The adapter chosen for a supported id, run against the service, with its
      completion checked to be a string. */
  function RunAdapter(modelId: string, prompt: string, temperature: real, maxTokens: int, runtime: Runtime)
    : (r: Outcome<string>)
    requires Supported(modelId)
    ensures modelId == JurassicRouteId ==> r == Jurassic2.Invoke(prompt, temperature, maxTokens, runtime)
    ensures var c := Claude.Invoke(prompt, temperature, maxTokens, runtime);
      modelId == ClaudeRouteId ==>
        (r.Ok? <==> c.Ok? && c.value.Str?)
        && (r.Ok? ==> c.value == Str(r.value))
        && (c.Raised? ==> r == Raised(c.failure))
        && (c.Ok? && !c.value.Str? ==> r == Raised(NotAString))
  {
    if modelId == ClaudeRouteId then
      match Claude.Invoke(prompt, temperature, maxTokens, runtime)
      case Ok(Str(s)) => Ok(s)
      case Ok(_) => Raised(NotAString)
      case Raised(f) => Raised(f)
    else
      Jurassic2.Invoke(prompt, temperature, maxTokens, runtime)
  }

  /** The route handler. */
  function Invoke(modelId: string, prompt: string, temperature: real, maxTokens: int, runtime: Runtime)
    : (r: Response<string>)
    ensures !Supported(modelId) ==> r == HttpError(400, "Unsupported model: " + modelId)
    ensures Supported(modelId) ==> r.Ok200? || r.status == 403 || r.status == 500
    ensures Supported(modelId) && RunAdapter(modelId, prompt, temperature, maxTokens, runtime).Ok? ==>
      r == Ok200(RunAdapter(modelId, prompt, temperature, maxTokens, runtime).value)
    ensures Supported(modelId) && RunAdapter(modelId, prompt, temperature, maxTokens, runtime).Raised? ==>
      r == HttpError(Classify(RunAdapter(modelId, prompt, temperature, maxTokens, runtime).failure).status,
                     Classify(RunAdapter(modelId, prompt, temperature, maxTokens, runtime).failure).detail)
  {
    if !Supported(modelId) then HttpError(400, "Unsupported model: " + modelId)
    else
      match RunAdapter(modelId, prompt, temperature, maxTokens, runtime)
      case Ok(s) => Ok200(s)
      case Raised(f) => var e := Classify(f); HttpError(e.status, e.detail)
  }

  /** An unsupported id never reaches the service: whatever the service would
      answer, the route answers the same 400. */
  lemma UnsupportedMakesNoCall(modelId: string, prompt: string, temperature: real, maxTokens: int, rt1: Runtime, rt2: Runtime)
    requires !Supported(modelId)
    ensures Invoke(modelId, prompt, temperature, maxTokens, rt1) == Invoke(modelId, prompt, temperature, maxTokens, rt2)
    ensures Invoke(modelId, prompt, temperature, maxTokens, rt1).status == 400
  {
  }

  /** The Claude id reaches the service with the Claude adapter's request and
      nothing else. */
  lemma ClaudeMakesOneCall(prompt: string, temperature: real, maxTokens: int, rt1: Runtime, rt2: Runtime)
    requires rt1(Claude.Request(prompt, temperature, maxTokens)) == rt2(Claude.Request(prompt, temperature, maxTokens))
    ensures Invoke(ClaudeRouteId, prompt, temperature, maxTokens, rt1) == Invoke(ClaudeRouteId, prompt, temperature, maxTokens, rt2)
  {
  }

  /** The Jurassic id reaches the service with the Jurassic adapter's request
      and nothing else. */
  lemma JurassicMakesOneCall(prompt: string, temperature: real, maxTokens: int, rt1: Runtime, rt2: Runtime)
    requires rt1(Jurassic2.Request(prompt, temperature, maxTokens)) == rt2(Jurassic2.Request(prompt, temperature, maxTokens))
    ensures Invoke(JurassicRouteId, prompt, temperature, maxTokens, rt1) == Invoke(JurassicRouteId, prompt, temperature, maxTokens, rt2)
  {
  }

  /** A 200 carries exactly what the selected adapter produced. */
  lemma CompletionIsAdapterOutput(modelId: string, prompt: string, temperature: real, maxTokens: int, runtime: Runtime)
    ensures Invoke(modelId, prompt, temperature, maxTokens, runtime).Ok200? ==>
      var c := Invoke(modelId, prompt, temperature, maxTokens, runtime).body;
      (modelId == ClaudeRouteId && Claude.Invoke(prompt, temperature, maxTokens, runtime) == Ok(Str(c)))
      || (modelId == JurassicRouteId && Jurassic2.Invoke(prompt, temperature, maxTokens, runtime) == Ok(c))
  {
  }

  /** The id the route matches for Claude is not the id the adapter sends: the
      adapter drops the `us.` prefix. */
  lemma ClaudeIdRewritten(prompt: string, temperature: real, maxTokens: int)
    ensures Claude.Request(prompt, temperature, maxTokens).modelId != ClaudeRouteId
    ensures "us." + Claude.Request(prompt, temperature, maxTokens).modelId == ClaudeRouteId
  {
  }
}
