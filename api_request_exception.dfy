/** The proxy's checked failure: a message, an optional cause and the HTTP status it maps to. */
module ApiRequestExceptions {
  import opened Wrappers

  /** The two `HttpStatus` values the core assigns, by their numeric codes. */
  const BadRequest: int := 400
  const InternalServerError: int := 500

  /**
   * An `ApiRequestException`.  `cause` holds the message of the wrapped
   * Throwable, if the exception was built with one.
   */
  datatype ApiRequestException = ApiRequestException(message: string, cause: Option<string>, httpStatus: int)

  /** `new ApiRequestException(message)`: a client error. */
  function WithMessage(message: string): (e: ApiRequestException)
    ensures e.message == message && e.cause == None
    ensures e.httpStatus == BadRequest
  {
    ApiRequestException(message, None, BadRequest)
  }

  /** `new ApiRequestException(message, status)`: the status given. */
  function WithStatus(message: string, status: int): (e: ApiRequestException)
    ensures e.message == message && e.cause == None
    ensures e.httpStatus == status
  {
    ApiRequestException(message, None, status)
  }

  /** `new ApiRequestException(message, cause)`: a server error. */
  function WithCause(message: string, cause: string): (e: ApiRequestException)
    ensures e.message == message && e.cause == Some(cause)
    ensures e.httpStatus == InternalServerError
  {
    ApiRequestException(message, Some(cause), InternalServerError)
  }

  /** `new ApiRequestException(message, cause, status)`: the status given. */
  function WithCauseAndStatus(message: string, cause: string, status: int): (e: ApiRequestException)
    ensures e.message == message && e.cause == Some(cause)
    ensures e.httpStatus == status
  {
    ApiRequestException(message, Some(cause), status)
  }

  /** `getHttpStatus()`. */
  function GetHttpStatus(e: ApiRequestException): (status: int)
    ensures status == e.httpStatus
  {
    e.httpStatus
  }

  /** Only the constructors without an explicit status decide it, and they decide it by whether a cause is given. */
  lemma DefaultStatusFollowsCause(message: string, cause: string)
    ensures GetHttpStatus(WithMessage(message)) != GetHttpStatus(WithCause(message, cause))
    ensures WithStatus(message, BadRequest) == WithMessage(message)
    ensures WithCauseAndStatus(message, cause, InternalServerError) == WithCause(message, cause)
  {
  }
}
