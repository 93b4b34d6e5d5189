/** The health service: a connectivity report for the model service (client
    creation, then the model listing) and the validation of one model id, each
    built as a record whose fields are overwritten step by step and whose error
    list grows by one entry per failure (plus guidance for two provider codes). */
module HealthService {
  import opened Values
  import RouteErrors
  import PyStr

  const Healthy := "healthy"
  const Unhealthy := "unhealthy"

  // ------------------------------------------------------------ provider data

  /** One entry of `list_foundation_models()["modelSummaries"]`; every field
      may be absent. */
  datatype ModelSummary = ModelSummary(
    modelId: Option<string>, modelName: Option<string>, providerName: Option<string>,
    inputModalities: Option<seq<string>>, outputModalities: Option<seq<string>>)

  /** The listing answer; `modelSummaries` may be absent. */
  datatype ListModelsResponse = ListModelsResponse(modelSummaries: Option<seq<ModelSummary>>)

  /** `get_foundation_model(...)["modelDetails"]`; every field may be absent. */
  datatype ModelDetailsIn = ModelDetailsIn(
    modelId: Option<string>, modelArn: Option<string>, modelName: Option<string>,
    providerName: Option<string>, inputModalities: Option<seq<string>>,
    outputModalities: Option<seq<string>>, responseStreamingSupported: Option<bool>,
    customizationsSupported: Option<seq<string>>, inferenceTypesSupported: Option<seq<string>>)

  /** The lookup answer; `modelDetails` may be absent, and then reads as `{}`. */
  datatype GetModelResponse = GetModelResponse(modelDetails: Option<ModelDetailsIn>)

  const NoDetails := ModelDetailsIn(None, None, None, None, None, None, None, None, None)

  // ------------------------------------------------------------ the records

  /** An entry of `available_models`: the three names as found (None when
      absent) and the modalities, empty when absent. */
  datatype ModelEntry = ModelEntry(
    modelId: Option<string>, modelName: Option<string>, providerName: Option<string>,
    inputModalities: seq<string>, outputModalities: seq<string>)

  /** `model_details` of an accessible model. */
  datatype ModelDetails = ModelDetails(
    modelId: Option<string>, modelArn: Option<string>, modelName: Option<string>,
    providerName: Option<string>, inputModalities: seq<string>, outputModalities: seq<string>,
    responseStreamingSupported: Option<bool>, customizationsSupported: seq<string>,
    inferenceTypesSupported: seq<string>)

  /** An entry of `errors`: its `type`, and `code` and `details` where the
      entry has those keys. */
  datatype ErrorEntry = ErrorEntry(kind: string, code: Option<string>, message: string, details: Option<string>)

  /** The `health_status` dictionary. */
  datatype HealthReport = HealthReport(
    status: string, region: string, clientInitialized: bool,
    availableModels: seq<ModelEntry>, modelCount: int, errors: seq<ErrorEntry>)

  /** The `validation_result` dictionary. */
  datatype ValidationReport = ValidationReport(
    modelId: string, accessible: bool, region: string,
    modelDetails: Option<ModelDetails>, errors: seq<ErrorEntry>)

  // ------------------------------------------------------------ error entries

  const HealthCredentialsHint :=
    "AWS credentials not configured. Check AWS_ACCESS_KEY_ID and AWS_SECRET_ACCESS_KEY environment variables or ~/.aws/credentials file."
  const ValidationCredentialsHint := "AWS credentials not configured"

  /** The entry an `except` branch appends for failure `f`; the two services
      differ only in the hint they give for missing credentials. */
  function FailureEntry(f: Failure, credentialsHint: string): (e: ErrorEntry)
    ensures e.kind == FailureTypeName(f)
    ensures e.code.Some? <==> f.ClientError?
    ensures f.ClientError? ==> e.code.value == f.code && e.message == MessageOrDefault(f.message)
    ensures e.details.Some? <==> f.NoCredentials? || f.PartialCredentials?
    ensures f.NoCredentials? ==> e.message == "No AWS credentials found" && e.details.value == credentialsHint
    ensures f.PartialCredentials? ==>
      e.message == "Incomplete AWS credentials: " + f.text && e.details.value == f.text
    ensures f.Exception? ==> e.message == f.text
  {
    match f
    case NoCredentials => ErrorEntry("NoCredentialsError", None, "No AWS credentials found", Some(credentialsHint))
    case PartialCredentials(t) =>
      ErrorEntry("PartialCredentialsError", None, "Incomplete AWS credentials: " + t, Some(t))
    case ClientError(code, message) => ErrorEntry("ClientError", Some(code), MessageOrDefault(message), None)
    case Exception(t, text) => ErrorEntry(t, None, text, None)
  }

  /** A `"Guidance"` entry: a message only. */
  function Guidance(message: string): ErrorEntry {
    ErrorEntry("Guidance", None, message, None)
  }

  function NotFoundGuidance(modelId: string, region: string): string {
    "Model '" + modelId + "' not found. It may not exist, not be available in region '" + region
      + "', or model access may not be enabled in AWS Bedrock."
  }

  function AccessDeniedGuidance(modelId: string): string {
    "Access denied to model '" + modelId + "'. Check IAM permissions for bedrock:GetFoundationModel action."
  }

  // ------------------------------------------------------------ health check

  /** One `available_models` entry per summary. */
  function ProjectSummary(s: ModelSummary): (e: ModelEntry)
    ensures e.modelId == s.modelId && e.modelName == s.modelName && e.providerName == s.providerName
    ensures s.inputModalities.None? ==> e.inputModalities == []
    ensures s.outputModalities.None? ==> e.outputModalities == []
    ensures s.inputModalities.Some? ==> e.inputModalities == s.inputModalities.value
    ensures s.outputModalities.Some? ==> e.outputModalities == s.outputModalities.value
  {
    ModelEntry(s.modelId, s.modelName, s.providerName,
               s.inputModalities.GetOr([]), s.outputModalities.GetOr([]))
  }

  /** `response.get('modelSummaries', [])`. */
  function Summaries(response: ListModelsResponse): seq<ModelSummary> {
    response.modelSummaries.GetOr([])
  }

  /** What holds of every health report: "healthy" exactly when no error was
      recorded, at most one error, the count agreeing with the list, and no
      models without a client. */
  predicate WellFormedHealth(h: HealthReport) {
    (h.status == Healthy || h.status == Unhealthy)
    && (h.status == Healthy <==> h.errors == [])
    && |h.errors| <= 1
    && h.modelCount == |h.availableModels|
    && (!h.clientInitialized ==> h.availableModels == [])
  }

  /** `check_bedrock_health(region)`. `connect` is what creating the client
      raised, if anything; `listing` is what `list_foundation_models()`
      returned or raised. */
  method CheckBedrockHealth(region: string, connect: Option<Failure>, listing: Outcome<ListModelsResponse>)
    returns (h: HealthReport)
    ensures WellFormedHealth(h)
    ensures h.region == region
    ensures h.clientInitialized <==> connect.None?
    ensures h.status == Healthy <==> connect.None? && listing.Ok?
    ensures connect.Some? ==> h.errors == [FailureEntry(connect.value, HealthCredentialsHint)]
    ensures connect.None? && listing.Raised? ==> h.errors == [FailureEntry(listing.failure, HealthCredentialsHint)]
    ensures h.status == Unhealthy ==> h.availableModels == [] && h.modelCount == 0
    ensures h.status == Healthy ==>
      h.modelCount == |Summaries(listing.value)|
      && forall i :: 0 <= i < |h.availableModels| ==> h.availableModels[i] == ProjectSummary(Summaries(listing.value)[i])
  {
    h := HealthReport(Healthy, region, false, [], 0, []);
    if connect.Some? {
      h := h.(status := Unhealthy, errors := h.errors + [FailureEntry(connect.value, HealthCredentialsHint)]);
      return;
    }
    h := h.(clientInitialized := true);
    if listing.Raised? {
      h := h.(status := Unhealthy, errors := h.errors + [FailureEntry(listing.failure, HealthCredentialsHint)]);
      return;
    }
    var summaries := Summaries(listing.value);
    h := h.(modelCount := |summaries|);
    var i := 0;
    while i < |summaries|
      invariant 0 <= i <= |summaries|
      invariant h.status == Healthy && h.region == region && h.clientInitialized
      invariant h.modelCount == |summaries| && h.errors == []
      invariant |h.availableModels| == i
      invariant forall j :: 0 <= j < i ==> h.availableModels[j] == ProjectSummary(summaries[j])
    {
      h := h.(availableModels := h.availableModels + [ProjectSummary(summaries[i])]);
      i := i + 1;
    }
  }

  // ------------------------------------------------------------ validation

  /** `model_details` built from the lookup answer. */
  function ProjectDetails(response: GetModelResponse): (d: ModelDetails)
    ensures var m := response.modelDetails.GetOr(NoDetails);
      d.modelId == m.modelId && d.modelArn == m.modelArn && d.modelName == m.modelName
      && d.providerName == m.providerName
      && d.responseStreamingSupported == m.responseStreamingSupported
      && d.inputModalities == m.inputModalities.GetOr([])
      && d.outputModalities == m.outputModalities.GetOr([])
      && d.customizationsSupported == m.customizationsSupported.GetOr([])
      && d.inferenceTypesSupported == m.inferenceTypesSupported.GetOr([])
  {
    var m := response.modelDetails.GetOr(NoDetails);
    ModelDetails(m.modelId, m.modelArn, m.modelName, m.providerName,
                 m.inputModalities.GetOr([]), m.outputModalities.GetOr([]),
                 m.responseStreamingSupported,
                 m.customizationsSupported.GetOr([]), m.inferenceTypesSupported.GetOr([]))
  }

  /** The failure that ends a validation attempt, if any: creating the client
      comes first, then the lookup. */
  function AttemptFailure(connect: Option<Failure>, lookup: Outcome<GetModelResponse>): (r: Option<Failure>)
    ensures r.None? <==> connect.None? && lookup.Ok?
    ensures connect.Some? ==> r == connect
    ensures connect.None? && lookup.Raised? ==> r == Some(lookup.failure)
  {
    if connect.Some? then connect
    else if lookup.Raised? then Some(lookup.failure)
    else None
  }

  /** The guidance a provider code earns, if any. */
  function GuidanceFor(code: string, modelId: string, region: string): (g: seq<ErrorEntry>)
    ensures |g| <= 1
    ensures |g| == 1 <==> code == RouteErrors.NotFound || code == RouteErrors.AccessDenied
    ensures forall i :: 0 <= i < |g| ==> g[i].kind == "Guidance" && g[i].code.None?
    ensures code == RouteErrors.NotFound ==> g == [Guidance(NotFoundGuidance(modelId, region))]
    ensures code == RouteErrors.AccessDenied ==> g == [Guidance(AccessDeniedGuidance(modelId))]
  {
    if code == RouteErrors.NotFound then [Guidance(NotFoundGuidance(modelId, region))]
    else if code == RouteErrors.AccessDenied then [Guidance(AccessDeniedGuidance(modelId))]
    else []
  }

  /** What holds of every validation report: accessible exactly when details
      are present, an accessible model has no errors, and an inaccessible one
      has one failure entry followed by at most one guidance entry. */
  predicate WellFormedValidation(v: ValidationReport) {
    (v.accessible <==> v.modelDetails.Some?)
    && (v.accessible ==> v.errors == [])
    && (!v.accessible ==> 1 <= |v.errors| <= 2)
    && (|v.errors| == 2 ==> v.errors[1].kind == "Guidance" && v.errors[0].code.Some?)
  }

  /** `validate_model(model_id, region)`. `connect` is what creating the
      client raised, if anything; `lookup` is what `get_foundation_model`
      returned or raised. */
  method ValidateModel(modelId: string, region: string, connect: Option<Failure>, lookup: Outcome<GetModelResponse>)
    returns (v: ValidationReport)
    ensures WellFormedValidation(v)
    ensures v.modelId == modelId && v.region == region
    ensures v.accessible <==> connect.None? && lookup.Ok?
    ensures v.accessible ==> v.modelDetails == Some(ProjectDetails(lookup.value))
    ensures var f := AttemptFailure(connect, lookup);
      f.Some? ==> v.errors[0] == FailureEntry(f.value, ValidationCredentialsHint)
    ensures var f := AttemptFailure(connect, lookup);
      f.Some? ==> v.errors[1..] == (if f.value.ClientError? then GuidanceFor(f.value.code, modelId, region) else [])
  {
    v := ValidationReport(modelId, false, region, None, []);
    var failure := AttemptFailure(connect, lookup);
    if failure.None? {
      v := v.(accessible := true);
      v := v.(modelDetails := Some(ProjectDetails(lookup.value)));
      return;
    }
    var f := failure.value;
    v := v.(errors := v.errors + [FailureEntry(f, ValidationCredentialsHint)]);
    if f.ClientError? {
      if f.code == RouteErrors.NotFound {
        v := v.(errors := v.errors + [Guidance(NotFoundGuidance(modelId, region))]);
      } else if f.code == RouteErrors.AccessDenied {
        v := v.(errors := v.errors + [Guidance(AccessDeniedGuidance(modelId))]);
      }
    }
  }

  /** The guidance texts name the model (and, for not-found, the region). */
  lemma GuidanceNamesModel(modelId: string, region: string)
    ensures PyStr.Contains(NotFoundGuidance(modelId, region), modelId)
    ensures PyStr.Contains(NotFoundGuidance(modelId, region), region)
    ensures PyStr.Contains(AccessDeniedGuidance(modelId), modelId)
  {
    var a := "Model '";
    var b := "' not found. It may not exist, not be available in region '";
    var c := "', or model access may not be enabled in AWS Bedrock.";
    assert NotFoundGuidance(modelId, region) == a + modelId + (b + region + c);
    PyStr.ContainsMiddle(a, modelId, b + region + c);
    assert NotFoundGuidance(modelId, region) == (a + modelId + b) + region + c;
    PyStr.ContainsMiddle(a + modelId + b, region, c);
    var d := "'. Check IAM permissions for bedrock:GetFoundationModel action.";
    assert AccessDeniedGuidance(modelId) == "Access denied to model '" + modelId + d;
    PyStr.ContainsMiddle("Access denied to model '", modelId, d);
  }
}
