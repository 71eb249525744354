/**
 * The shared axios instance of src/config/api.ts: a request interceptor and
 * a success interceptor that pass their argument through, and a failure
 * interceptor that turns every rejected call into a `{status, message}`
 * record.
 */
module ApiConfig {
  import opened Util
  import opened Http

  /** The record every failure is rejected with. */
  datatype ApiError = ApiError(status: int, message: string)

  const DefaultServerMessage := "An error occurred"
  const UnavailableMessage := "Service unavailable. Please try again later."
  const UnexpectedMessage := "An unexpected error occurred."

  /** The failure interceptor: server response first, then missing response, then the rest. */
  function NormalizeError(e: AxiosError): (r: ApiError)
    ensures e.ResponseError? ==> r.status == e.status
    ensures e.ResponseError? && Truthy(e.body.error) ==> r.message == e.body.error.value
    ensures e.ResponseError? && !Truthy(e.body.error) ==> r.message == DefaultServerMessage
    ensures e.NoResponse? ==> r == ApiError(503, UnavailableMessage)
    ensures e.SetupError? ==> r == ApiError(500, UnexpectedMessage)
    ensures r.message != ""
  {
    match e
    case ResponseError(status, body, _) => ApiError(status, OptOrElse(body.error, DefaultServerMessage))
    case NoResponse(_) => ApiError(503, UnavailableMessage)
    case SetupError(_) => ApiError(500, UnexpectedMessage)
  }

  /** Every normalised message is the server's own text or one of the three fixed texts. */
  lemma NormalizedMessageOrigin(e: AxiosError)
    ensures var m := NormalizeError(e).message;
      m in {DefaultServerMessage, UnavailableMessage, UnexpectedMessage}
      || (e.ResponseError? && Truthy(e.body.error) && m == e.body.error.value)
  {
  }

  /**
   * A failure without a server response is told apart by its status alone:
   * it is 503 exactly when the request went out unanswered.
   */
  lemma StatusWithoutResponse(e: AxiosError)
    requires !e.ResponseError?
    ensures NormalizeError(e).status == 503 <==> e.NoResponse?
    ensures NormalizeError(e).status == 500 <==> e.SetupError?
  {
  }

  /** The normalisation ignores the axios message: only the kind, status and body matter. */
  lemma {:induction false} NormalizeIgnoresAxiosMessage(e: AxiosError, m: string)
    ensures NormalizeError(e) == NormalizeError(e.(message := m))
  {
    match e
    case ResponseError(_, _, _) =>
    case NoResponse(_) =>
    case SetupError(_) =>
  }

  /** What a call through the instance yields: the response, or the normalised rejection. */
  datatype Outcome<+T> = Resolved(value: T) | Rejected(error: ApiError)

  /**
   * The request interceptor: an outgoing config is passed on unchanged and a
   * rejection is passed on unchanged (it then reaches NormalizeError as a
   * failure that never got a request out).
   */
  function OnRequest<C>(stage: Reply<C>): (r: Reply<C>)
    ensures r == stage
  {
    match stage
    case Ok(config) => Ok(config)
    case Fail(e) => Fail(e)
  }

  /** Both response interceptors together, applied to the reply of one call. */
  function Intercept<T>(reply: Reply<T>): (r: Outcome<T>)
    ensures reply.Ok? <==> r.Resolved?
    ensures reply.Ok? ==> r.value == reply.data
    ensures reply.Fail? ==> r.error == NormalizeError(reply.error)
  {
    match reply
    case Ok(data) => Resolved(data)
    case Fail(e) => Rejected(NormalizeError(e))
  }
}
