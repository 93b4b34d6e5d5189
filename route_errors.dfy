/** What a route answers, and the policy the text and foundation-model routes
    share for turning a raised failure into an HTTP error. */
module RouteErrors {
  import opened Values
  import PyStr

  /** A route's answer: 200 with a body, or an `HTTPException(status, detail)`. */
  datatype Response<+T> = Ok200(body: T) | HttpError(status: int, detail: string)

  const AccessDenied := "AccessDeniedException"
  const NotFound := "ResourceNotFoundException"

  /** The diagnostic a failure carries: the provider message (or its default)
      for a ClientError, `str(e)` for anything else. */
  function Diagnostic(f: Failure): string {
    if f.ClientError? then MessageOrDefault(f.message) else FailureText(f)
  }

  /** The `except ClientError` / `except Exception` pair of the routes: access
      denied is 403 with the bare message; every other provider code is 500
      with "code: message"; any other exception is 500 with "Type: message". */
  function Classify(f: Failure): (e: Response<()>)
    ensures e.HttpError?
    ensures e.status == 403 <==> f.ClientError? && f.code == AccessDenied
    ensures e.status != 403 ==> e.status == 500
    ensures e.status == 403 ==> e.detail == MessageOrDefault(f.message)
    ensures f.ClientError? && f.code != AccessDenied ==>
      e.detail == f.code + ": " + MessageOrDefault(f.message)
    ensures !f.ClientError? ==> e.detail == FailureTypeName(f) + ": " + FailureText(f)
  {
    match f
    case ClientError(code, message) =>
      if code == AccessDenied then HttpError(403, MessageOrDefault(message))
      else HttpError(500, code + ": " + MessageOrDefault(message))
    case _ => HttpError(500, FailureTypeName(f) + ": " + FailureText(f))
  }

  /** The provider's or the exception's own text always ends the detail: it is
      passed on, never rewritten. */
  lemma DiagnosticPreserved(f: Failure)
    ensures PyStr.EndsWith(Classify(f).detail, Diagnostic(f))
  {
    var d := Classify(f).detail;
    var m := Diagnostic(f);
    if Classify(f).status == 500 {
      var prefix := d[..|d| - |m|];
      assert d == prefix + m;
    }
  }

  /** A not-found provider error is not distinguished by these routes: it is a
      500 like any other code other than access denied. */
  lemma NotFoundIsInternal(message: Option<string>)
    ensures Classify(ClientError(NotFound, message)) ==
      HttpError(500, "ResourceNotFoundException: " + MessageOrDefault(message))
  {
  }
}
