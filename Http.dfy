/**
 * The shapes through which the pages meet the backend. The HTTP calls
 * themselves are not modelled: a page records each request it issues and
 * receives the reply to it as an input.
 */
module Http {
  import opened Util

  datatype Verb = GET | POST | PUT | PATCH | DELETE

  /** One outgoing call (its body is not modelled). */
  datatype Request = Request(verb: Verb, path: string)

  /** The `error` field of a JSON error body. */
  datatype ErrorBody = ErrorBody(error: Option<string>)

  /**
   * A rejected axios call: the server answered with a non-2xx status, the
   * request went out and nothing came back, or the request could not be set
   * up. `message` is the JavaScript Error's own message.
   */
  datatype AxiosError =
    | ResponseError(status: int, body: ErrorBody, message: string)
    | NoResponse(message: string)
    | SetupError(message: string)

  /** The reply to one call: the response data, or the rejection. */
  datatype Reply<+T> = Ok(data: T) | Fail(error: AxiosError)

  /** `error?.message || 'Unknown error'`, the detail most pages show. */
  function ErrorDetail(e: AxiosError): (r: string)
    ensures r != ""
    ensures e.message != "" ==> r == e.message
    ensures e.message == "" ==> r == "Unknown error"
  {
    OrElse(e.message, "Unknown error")
  }

  /** `error.response?.data?.error || error.message` on a raw axios error. */
  function ServerErrorOrMessage(e: AxiosError): (r: string)
    ensures e.ResponseError? && Truthy(e.body.error) ==> r == e.body.error.value
    ensures !(e.ResponseError? && Truthy(e.body.error)) ==> r == e.message
  {
    if e.ResponseError? then OptOrElse(e.body.error, e.message) else e.message
  }
}

/** The single notification slot of a page (a snackbar or an alert). */
module Notice {
  datatype Severity = Success | Error | Warning | Info

  datatype Notification = Notification(severity: Severity, message: string)

  /** The `color` of a status chip. */
  datatype ChipColor = DefaultColor | InfoColor | SuccessColor | WarningColor | ErrorColor
}
