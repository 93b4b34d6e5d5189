/** The runtime API of the model service, as the adapters see it: one call
    carries a model id and a request body and yields the decoded response body
    or raises. The service itself is a parameter of every adapter. */
module Bedrock {
  import opened Values

  /** One `invoke_model(body=..., modelId=...)` request. */
  datatype Call = Call(modelId: string, body: Value)

  /** The service: what answer (or error) each request gets. */
  type Runtime = Call -> Outcome<Value>
}
