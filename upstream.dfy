/**
 * The outcome of an upstream call and how the handlers turn a failed call
 * into an HTTP status. The HTTP client is not modelled: a call is a function
 * from URL to outcome, and a failure carries what the handlers inspect of the
 * client's error object.
 */
module Upstream {
  import opened Wrappers
  import opened JsString
  import opened Http

  /**
   * The parts of the client's error the handlers look at: the status of the
   * response, when the upstream answered (`error.response`); whether a request
   * went out (`error.request`); and the error code (`error.code`).
   */
  datatype ClientError = ClientError(response: Option<int>, requestSent: bool, code: string)

  datatype Outcome<T> = Received(body: T, contentType: Option<string>) | Rejected(error: ClientError)

  /** The client rejects a call only when the status is not 2xx (or there is no response). */
  predicate ClientRejects(e: ClientError) {
    e.response.Some? ==> !(200 <= e.response.value < 300)
  }

  datatype FailureKind = Mirrored(status: int) | Unavailable | TimedOut | Internal {
    function Status(): int {
      match this
      case Mirrored(s) => s
      case Unavailable => 503
      case TimedOut => 504
      case Internal => 500
    }
  }

  /** The product-metadata classifier: the upstream status, else 503 when a request went out, else 500. */
  function ProductFailure(e: ClientError): FailureKind {
    if e.response.Some? then Mirrored(e.response.value)
    else if e.requestSent then Unavailable
    else Internal
  }

  /** The image classifier of the first and the text-overlay servers: the upstream status, else 500. */
  function ImageFailure(e: ClientError): FailureKind {
    if e.response.Some? then Mirrored(e.response.value) else Internal
  }

  const Aborted: string := "ECONNABORTED"

  /** The image classifier of the hardened servers: the upstream status, else 504 on a timeout, else 500. */
  function ImageFailureWithTimeout(e: ClientError): FailureKind {
    if e.response.Some? then Mirrored(e.response.value)
    else if e.code == Aborted then TimedOut
    else Internal
  }

  /** A response from upstream decides the status in every classifier, before anything else is looked at. */
  lemma ResponseTakesPrecedence(e: ClientError)
    requires e.response.Some?
    ensures ProductFailure(e) == ImageFailure(e) == ImageFailureWithTimeout(e) == Mirrored(e.response.value)
  {
  }

  /**
   * The timeout branch is the only difference between the two image
   * classifiers: they agree except on a timed-out call without a response,
   * which one reports as 504 and the other as 500.
   */
  lemma TimeoutBranchOnly(e: ClientError)
    ensures ImageFailureWithTimeout(e) != ImageFailure(e) <==> e.response.None? && e.code == Aborted
    ensures e.response.None? && e.code == Aborted ==>
      ImageFailureWithTimeout(e).Status() == 504 && ImageFailure(e).Status() == 500
  {
  }

  /**
   * The product classifier has no timeout branch: a metadata call that times
   * out after the request went out is reported as 503, never 504.
   */
  lemma ProductTimeoutIsUnavailable(e: ClientError)
    requires e.response.None? && e.requestSent && e.code == Aborted
    ensures ProductFailure(e).Status() == 503
  {
  }

  /** No failed call is ever reported as a success. */
  lemma FailureIsNeverSuccess(e: ClientError)
    requires ClientRejects(e)
    ensures !(200 <= ProductFailure(e).Status() < 300)
    ensures !(200 <= ImageFailure(e).Status() < 300)
    ensures !(200 <= ImageFailureWithTimeout(e).Status() < 300)
    ensures ProductFailure(e).Status() in {503, 500} || e.response == Some(ProductFailure(e).Status())
  {
  }

  /**
   * The global error handler: always 500; the error's own message only when
   * the environment is `development`, else a fixed text.
   */
  function UnhandledError(nodeEnv: string, errorMessage: string): (r: Reply)
    ensures r.Status() == 500
    ensures r.Failure? && r.message.Some?
    ensures r.message.value == errorMessage <==> nodeEnv == "development" || errorMessage == GenericMessage
  {
    Failure(500, "Internal server error", Some(if nodeEnv == "development" then errorMessage else GenericMessage))
  }

  const GenericMessage: string := "An unexpected error occurred"

  /** `process.env.NODE_ENV || d`. */
  function NodeEnv(env: Option<string>, d: string): string {
    OrElse(env, d)
  }
}
