/**
 * The application's exception hierarchy (`MasscanWebException` and its
 * four subclasses), together with the built-in Python exceptions that the
 * request handlers can meet (`ValueError`, `TypeError`, `AttributeError`).
 */
module Exceptions {
  import opened Wrappers

  /** Which class of the hierarchy an application error was raised as. */
  datatype ErrorKind = MasscanWeb | ScanFailure | Validation | ResourceNotFound | RateLimitExceeded

  /** An instance of `MasscanWebException` or a subclass: its message and `status_code`. */
  datatype AppError = AppError(kind: ErrorKind, message: string, statusCode: int)

  const DefaultStatusCode: int := 500
  const DefaultRateLimitMessage: string := "Rate limit exceeded"

  /**
   * `MasscanWebException(message, status_code=500)`: `None` stands for a
   * call that leaves `status_code` out.
   */
  function MasscanWebException(message: string, statusCode: Option<int>): (e: AppError)
    ensures e.message == message
    ensures statusCode.None? ==> e.statusCode == DefaultStatusCode
    ensures statusCode.Some? ==> e.statusCode == statusCode.value
  {
    AppError(MasscanWeb, message, if statusCode.Some? then statusCode.value else DefaultStatusCode)
  }

  /** `ScanError(message)`: inherits the base constructor and so its default status 500. */
  function ScanError(message: string): (e: AppError)
    ensures e.message == message && e.statusCode == DefaultStatusCode
  {
    MasscanWebException(message, None).(kind := ScanFailure)
  }

  /** `ValidationError(message)`: always status 400. */
  function ValidationError(message: string): (e: AppError)
    ensures e.message == message && e.statusCode == 400
  {
    MasscanWebException(message, Some(400)).(kind := Validation)
  }

  /** `ResourceNotFoundError(message)`: always status 404. */
  function ResourceNotFoundError(message: string): (e: AppError)
    ensures e.message == message && e.statusCode == 404
  {
    MasscanWebException(message, Some(404)).(kind := ResourceNotFound)
  }

  /** `RateLimitExceededError(message="Rate limit exceeded")`: always status 429. */
  function RateLimitExceededError(message: Option<string>): (e: AppError)
    ensures e.statusCode == 429
    ensures message.None? ==> e.message == DefaultRateLimitMessage
    ensures message.Some? ==> e.message == message.value
  {
    MasscanWebException(if message.Some? then message.value else DefaultRateLimitMessage, Some(429))
      .(kind := RateLimitExceeded)
  }

  /** An exception raised inside a request handler. */
  datatype Raised =
    | App(error: AppError)
    | ValueError(text: string)
    | TypeError(text: string)
    | AttributeError(text: string)

  /** `str(e)`: every one of these exceptions prints as its message. */
  function Str(e: Raised): string {
    match e
    case App(a) => a.message
    case ValueError(t) => t
    case TypeError(t) => t
    case AttributeError(t) => t
  }

  /** `getattr(e, 'status_code', 500)`: only the application's own exceptions carry a status code. */
  function StatusCodeOf(e: Raised): (code: int)
    ensures e.App? ==> code == e.error.statusCode
    ensures !e.App? ==> code == DefaultStatusCode
  {
    if e.App? then e.error.statusCode else DefaultStatusCode
  }
}
