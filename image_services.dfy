/** The image-playground service: a Stable Diffusion request whose style preset
    is kept only when it is one of the known styles, answered by the first
    artifact's base64 data. */
module ImageServices {
  import opened Values
  import opened Bedrock

  /** The allow-list of style presets (exact, case-sensitive names). */
  const Styles: seq<string> := [
    "3d-model", "analog-film", "anime", "cinematic", "comic-book", "digital-art",
    "enhance", "fantasy-art", "isometric", "line-art", "low-poly",
    "modeling-compound", "neon-punk", "origami", "photographic", "pixel-art",
    "tile-texture"]

  const CfgScale := 20
  const Steps := 100

  /** `{"text_prompts": [{"text": prompt}], "cfg_scale": 20, "steps": 100}`,
      plus `"style_preset": style` exactly when `style` is allowed. */
  predicate IsImagePayload(body: Value, prompt: string, stylePreset: string) {
    body.Dict?
    && body.fields.Keys ==
         {"text_prompts", "cfg_scale", "steps"} + (if stylePreset in Styles then {"style_preset"} else {})
    && body.fields["text_prompts"] == List([Dict(map["text" := Str(prompt)])])
    && body.fields["cfg_scale"] == Int(CfgScale)
    && body.fields["steps"] == Int(Steps)
    && (stylePreset in Styles ==> body.fields["style_preset"] == Str(stylePreset))
  }

  /** At most one body fits a prompt and a requested style. */
  lemma ImagePayloadUnique(b1: Value, b2: Value, prompt: string, stylePreset: string)
    requires IsImagePayload(b1, prompt, stylePreset) && IsImagePayload(b2, prompt, stylePreset)
    ensures b1 == b2
  {
    assert b1.fields == b2.fields;
  }

  /** Builds the body as the service does: the fixed part first, then the style
      preset written into it when, and only when, the allow-list has it. An
      unknown style raises nothing; it is dropped. */
  method BuildPayload(prompt: string, stylePreset: string) returns (config: Value)
    ensures IsImagePayload(config, prompt, stylePreset)
    ensures config.Dict? && ("style_preset" in config.fields <==> stylePreset in Styles)
  {
    var fields := map[
      "text_prompts" := List([Dict(map["text" := Str(prompt)])]),
      "cfg_scale" := Int(CfgScale),
      "steps" := Int(Steps)];
    if stylePreset in Styles {
      fields := fields["style_preset" := Str(stylePreset)];
    }
    config := Dict(fields);
  }

  /** `response_body["artifacts"][0]["base64"]`. */
  function ParseImage(response: Value): (r: Outcome<Value>)
    ensures r.Ok? <==> (response.Dict? && "artifacts" in response.fields
      && response.fields["artifacts"].List? && |response.fields["artifacts"].items| > 0
      && response.fields["artifacts"].items[0].Dict?
      && "base64" in response.fields["artifacts"].items[0].fields)
    ensures r.Ok? ==> r.value == response.fields["artifacts"].items[0].fields["base64"]
  {
    FieldFirstFieldOk(response, "artifacts", "base64");
    FieldFirstField(response, "artifacts", "base64")
  }

  /** An answer with no artifacts is a failure, raised to the caller. */
  lemma NoArtifactsFails(response: Value)
    requires response.Dict? && ("artifacts" !in response.fields || response.fields["artifacts"] == List([]))
    ensures ParseImage(response).Raised?
  {
  }

  /** What `invoke` does with the answer body: it counts the artifacts for a
      log message (`len(response_body.get('artifacts', []))`), reads the first
      artifact's data, and measures that data for another log message. The log
      arguments are evaluated eagerly, so each of the three steps can raise. */
  function ReadImage(body: Value): (r: Outcome<Value>)
    ensures r.Ok? <==> ParseImage(body).Ok? && Sized(ParseImage(body).value)
    ensures r.Ok? ==> r.value == ParseImage(body).value
    ensures !body.Dict? ==>
      r == Raised(Exception("AttributeError", "'" + TypeName(body) + "' object has no attribute 'get'"))
    ensures body.Dict? && "artifacts" in body.fields && !Sized(body.fields["artifacts"]) ==>
      r == Raised(Exception("TypeError", "object of type '" + TypeName(body.fields["artifacts"]) + "' has no len()"))
    ensures (body.Dict? && ("artifacts" !in body.fields || Sized(body.fields["artifacts"]))
             && ParseImage(body).Raised?) ==> r == ParseImage(body)
    ensures ParseImage(body).Ok? && !Sized(ParseImage(body).value) ==>
      r == Raised(Exception("TypeError", "object of type '" + TypeName(ParseImage(body).value) + "' has no len()"))
  {
    if !body.Dict? then
      Raised(Exception("AttributeError", "'" + TypeName(body) + "' object has no attribute 'get'"))
    else
      var count := Len(if "artifacts" in body.fields then body.fields["artifacts"] else List([]));
      if count.Raised? then Raised(count.failure)
      else
        var image := ParseImage(body);
        if image.Raised? then image
        else if Len(image.value).Raised? then Raised(Len(image.value).failure)
        else image
  }

  /** Data that is not a string fails when its size is logged, although the
      subscripts that read it succeed. */
  lemma UnsizedDataRaises(body: Value)
    requires body == Dict(map["artifacts" := List([Dict(map["base64" := Int(5)])])])
    ensures ParseImage(body) == Ok(Int(5))
    ensures ReadImage(body) == Raised(Exception("TypeError", "object of type 'int' has no len()"))
  {
    assert "object of type '" + TypeName(Int(5)) + "' has no len()" == "object of type 'int' has no len()";
  }

  /** `invoke(prompt, style_preset, model_id)`: sends one request, to the model
      id it was given, and returns the first artifact's data or re-raises. */
  method Invoke(prompt: string, stylePreset: string, modelId: string, runtime: Runtime)
    returns (sent: Call, r: Outcome<Value>)
    ensures sent.modelId == modelId
    ensures IsImagePayload(sent.body, prompt, stylePreset)
    ensures runtime(sent).Raised? ==> r == Raised(runtime(sent).failure)
    ensures runtime(sent).Ok? ==> r == ReadImage(runtime(sent).value)
  {
    var config := BuildPayload(prompt, stylePreset);
    sent := Call(modelId, config);
    r := Then(runtime(sent), ReadImage);
  }

  /** "anime" is kept and "not-a-style" is dropped. */
  lemma StyleExamples(b1: Value, b2: Value, prompt: string)
    requires IsImagePayload(b1, prompt, "anime") && IsImagePayload(b2, prompt, "not-a-style")
    ensures b1.fields["style_preset"] == Str("anime")
    ensures "style_preset" !in b2.fields
  {
    assert Styles[2] == "anime";
    assert "not-a-style" !in Styles;
  }
}
