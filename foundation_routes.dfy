/** The foundation-model routes `GET /foundation-models` and
    `GET /foundation-models/model/{model_id}`: the service's result as it is, or
    the shared error policy. */
module FoundationModelsRoutes {
  import opened Values
  import opened RouteErrors

  /** What a handler answers when its service call raised `f`. */
  function ErrorResponse<T>(f: Failure): Response<T> {
    HttpError(Classify(f).status, Classify(f).detail)
  }

  /** `list_foundation_models()`, given what the service returned or raised. */
  function ListFoundationModels(service: Outcome<seq<Value>>): (r: Response<seq<Value>>)
    ensures service.Ok? <==> r.Ok200?
    ensures service.Ok? ==> r.body == service.value
    ensures service.Raised? ==>
      r.HttpError? && r.status == Classify(service.failure).status && r.detail == Classify(service.failure).detail
  {
    match service
    case Ok(models) => Ok200(models)
    case Raised(f) => ErrorResponse(f)
  }

  /** `get_foundation_model_details(model_id)`, given the service's lookup. */
  function GetFoundationModelDetails(modelId: string, service: string -> Outcome<Value>): (r: Response<Value>)
    ensures service(modelId).Ok? <==> r.Ok200?
    ensures service(modelId).Ok? ==> r.body == service(modelId).value
    ensures service(modelId).Raised? ==>
      r.HttpError? && r.status == Classify(service(modelId).failure).status
      && r.detail == Classify(service(modelId).failure).detail
  {
    match service(modelId)
    case Ok(details) => Ok200(details)
    case Raised(f) => ErrorResponse(f)
  }

  /** The two handlers answer every failure with the same status and detail. */
  lemma SameClassification(f: Failure, modelId: string)
    ensures var a := ListFoundationModels(Raised(f));
      var b := GetFoundationModelDetails(modelId, _ => Raised(f));
      a.HttpError? && b.HttpError? && a.status == b.status && a.detail == b.detail
  {
  }

  /** Access denied on either handler is 403 with the provider's message, and a
      not-found is 500 "ResourceNotFoundException: message". */
  lemma ProviderCodes(modelId: string, message: Option<string>)
    ensures GetFoundationModelDetails(modelId, _ => Raised(ClientError(AccessDenied, message)))
      == HttpError(403, MessageOrDefault(message))
    ensures GetFoundationModelDetails(modelId, _ => Raised(ClientError(NotFound, message)))
      == HttpError(500, NotFound + ": " + MessageOrDefault(message))
  {
  }
}
