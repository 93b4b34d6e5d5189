/** The health routes `GET /api/health` and `GET /api/health/model/{model_id}`:
    pick the region, call the service, and choose the status from the report. */
module HealthRoutes {
  import opened Values
  import opened RouteErrors
  import opened HealthService

  const DefaultRegion := "us-east-1"

  /** `region if region else "us-east-1"`: an absent or empty region falls
      back to the default. */
  function TargetRegion(region: Option<string>): (r: string)
    ensures region.Some? && region.value != "" ==> r == region.value
    ensures region.None? || region.value == "" ==> r == DefaultRegion
    ensures r != ""
  {
    if region.Some? && region.value != "" then region.value else DefaultRegion
  }

  /** What a service call did: returned a report, or raised an unexpected
      exception whose `str(e)` is `text`. */
  datatype ServiceResult<+T> = Returned(value: T) | Threw(text: string)

  /** `health_check`: the report is answered as it is, healthy or not; only an
      exception makes a 500. */
  function HealthCheckResponse(result: ServiceResult<HealthReport>): (r: Response<HealthReport>)
    ensures r.Ok200? <==> result.Returned?
    ensures result.Returned? ==> r.body == result.value
    ensures result.Threw? ==>
      r.status == 500 && r.detail == "Health check failed with unexpected error: " + result.text
  {
    match result
    case Returned(h) => Ok200(h)
    case Threw(text) => HttpError(500, "Health check failed with unexpected error: " + text)
  }

  /** An unhealthy report is still a 200 carrying that report. */
  lemma UnhealthyIsStillOk(h: HealthReport)
    requires h.status == Unhealthy
    ensures HealthCheckResponse(Returned(h)) == Ok200(h)
    ensures HealthCheckResponse(Returned(h)).body.status == Unhealthy
  {
  }

  /** `any(error.get("code") == code for error in errors)`. */
  predicate AnyCode(errors: seq<ErrorEntry>, code: string) {
    exists i :: 0 <= i < |errors| && errors[i].code == Some(code)
  }

  function NotFoundDetail(modelId: string, region: string): string {
    "Model '" + modelId + "' not found or not accessible in region '" + region + "'"
  }

  function AccessDeniedDetail(modelId: string): string {
    "Access denied to model '" + modelId + "'"
  }

  /** `validate_model` route: an accessible result is answered as it is; an
      inaccessible one is 404 when some error has the not-found code, else 403
      when some error has the access-denied code, else 200 with its errors. Any
      unexpected exception is 500. */
  function ValidateModelResponse(modelId: string, region: string, result: ServiceResult<ValidationReport>)
    : (r: Response<ValidationReport>)
    ensures result.Threw? ==>
      r == HttpError(500, "Model validation failed with unexpected error: " + result.text)
    ensures result.Returned? && result.value.accessible ==> r == Ok200(result.value)
    ensures result.Returned? && !result.value.accessible ==>
      (r == HttpError(404, NotFoundDetail(modelId, region)) <==> AnyCode(result.value.errors, NotFound))
    ensures result.Returned? && !result.value.accessible && !AnyCode(result.value.errors, NotFound) ==>
      (r == HttpError(403, AccessDeniedDetail(modelId)) <==> AnyCode(result.value.errors, AccessDenied))
    ensures result.Returned? && !result.value.accessible ==>
      (r == Ok200(result.value) <==>
       !AnyCode(result.value.errors, NotFound) && !AnyCode(result.value.errors, AccessDenied))
  {
    match result
    case Threw(text) => HttpError(500, "Model validation failed with unexpected error: " + text)
    case Returned(v) =>
      if v.accessible then Ok200(v)
      else if AnyCode(v.errors, NotFound) then HttpError(404, NotFoundDetail(modelId, region))
      else if AnyCode(v.errors, AccessDenied) then HttpError(403, AccessDeniedDetail(modelId))
      else Ok200(v)
  }

  /** Not-found wins over access-denied when both codes are present. */
  lemma NotFoundBeforeAccessDenied(modelId: string, region: string, v: ValidationReport)
    requires !v.accessible && AnyCode(v.errors, NotFound) && AnyCode(v.errors, AccessDenied)
    ensures ValidateModelResponse(modelId, region, Returned(v)).status == 404
  {
  }

  /** `GET /api/health?region=...` end to end: the report for the target
      region, always as 200. */
  method HealthCheck(region: Option<string>, connect: Option<Failure>, listing: Outcome<ListModelsResponse>)
    returns (r: Response<HealthReport>)
    ensures r.Ok200?
    ensures r.body.region == TargetRegion(region)
    ensures WellFormedHealth(r.body)
    ensures r.body.status == Healthy <==> connect.None? && listing.Ok?
    ensures r.body.clientInitialized <==> connect.None?
    ensures connect.Some? ==> r.body.errors == [FailureEntry(connect.value, HealthCredentialsHint)]
    ensures connect.None? && listing.Raised? ==>
      r.body.errors == [FailureEntry(listing.failure, HealthCredentialsHint)]
    ensures r.body.status == Unhealthy ==> r.body.availableModels == [] && r.body.modelCount == 0
    ensures r.body.status == Healthy ==>
      r.body.modelCount == |Summaries(listing.value)|
      && forall i :: 0 <= i < |r.body.availableModels| ==>
           r.body.availableModels[i] == ProjectSummary(Summaries(listing.value)[i])
  {
    var report := CheckBedrockHealth(TargetRegion(region), connect, listing);
    r := HealthCheckResponse(Returned(report));
  }

  /** `GET /api/health/model/{model_id}?region=...` end to end: 404 exactly
      when the attempt failed with the provider's not-found code, 403 exactly
      when it failed with access denied, and 200 otherwise, with the report. */
  method ValidateModelEndpoint(modelId: string, region: Option<string>, connect: Option<Failure>,
                               lookup: Outcome<GetModelResponse>)
    returns (r: Response<ValidationReport>)
    ensures var f := AttemptFailure(connect, lookup);
      var target := TargetRegion(region);
      (f.Some? && f.value.ClientError? && f.value.code == NotFound) ==>
        r == HttpError(404, NotFoundDetail(modelId, target))
    ensures var f := AttemptFailure(connect, lookup);
      (f.Some? && f.value.ClientError? && f.value.code == AccessDenied) ==>
        r == HttpError(403, AccessDeniedDetail(modelId))
    ensures var f := AttemptFailure(connect, lookup);
      r.Ok200? <==> !(f.Some? && f.value.ClientError? && (f.value.code == NotFound || f.value.code == AccessDenied))
    ensures r.Ok200? ==>
      r.body.modelId == modelId && r.body.region == TargetRegion(region)
      && (r.body.accessible <==> connect.None? && lookup.Ok?)
    ensures r.Ok200? ==> WellFormedValidation(r.body)
    ensures r.Ok200? && r.body.accessible ==> r.body.modelDetails == Some(ProjectDetails(lookup.value))
    ensures var f := AttemptFailure(connect, lookup);
      r.Ok200? && f.Some? ==>
        r.body.errors[0] == FailureEntry(f.value, ValidationCredentialsHint)
        && r.body.errors[1..] == (if f.value.ClientError? then GuidanceFor(f.value.code, modelId, TargetRegion(region)) else [])
  {
    var target := TargetRegion(region);
    var v := ValidateModel(modelId, target, connect, lookup);
    var f := AttemptFailure(connect, lookup);
    if f.Some? {
      CodesOfReport(modelId, target, f.value, v.errors);
    }
    r := ValidateModelResponse(modelId, target, Returned(v));
  }

  /** In a failed attempt's errors, the only entry with a code is the failure
      entry: the guidance after it has none. */
  lemma CodesOfReport(modelId: string, region: string, f: Failure, errors: seq<ErrorEntry>)
    requires |errors| >= 1 && errors[0] == FailureEntry(f, ValidationCredentialsHint)
    requires errors[1..] == (if f.ClientError? then GuidanceFor(f.code, modelId, region) else [])
    ensures forall code :: AnyCode(errors, code) <==> f.ClientError? && f.code == code
  {
    forall code ensures AnyCode(errors, code) <==> f.ClientError? && f.code == code {
      if f.ClientError? && f.code == code {
        assert errors[0].code == Some(code);
      }
    }
  }
}
