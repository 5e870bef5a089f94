/**
 * The table of common errors: for a handful of HTTP status codes, the
 * default message, machine-readable code and details that the error
 * handlers fall back on when an error leaves a field empty.
 */
module Registry {
  import opened Json

  datatype ErrorInfo = ErrorInfo(message: string, code: string, details: string)

  const BadRequest := 400
  const Unauthorized := 401
  const Forbidden := 403
  const NotFound := 404
  const Conflict := 409
  const UnprocessableEntity := 422
  const TooManyRequests := 429
  const InternalServerError := 500
  const BadGateway := 502
  const ServiceUnavailable := 503
  const GatewayTimeout := 504

  /** `COMMON_ERRORS`, keyed by status code. */
  const CommonErrors: map<int, ErrorInfo> := map[
    BadRequest := ErrorInfo(
      "Bad request",
      "BAD_REQUEST",
      "The request was invalid"),
    Unauthorized := ErrorInfo(
      "Authentication required or invalid credentials.",
      "UNAUTHORIZED",
      "You are not authorized to access this resource."),
    Forbidden := ErrorInfo(
      "Access denied.",
      "FORBIDDEN",
      "You do not have permission to perform this action."),
    NotFound := ErrorInfo(
      "Resource not found.",
      "NOT_FOUND",
      "The requested resource could not be found."),
    Conflict := ErrorInfo(
      "Conflict detected.",
      "RESOURCE_CONFLICT",
      "A resource with this identifier already exists."),
    UnprocessableEntity := ErrorInfo(
      "Unprocessable request.",
      "UNPROCESSABLE_ENTITY",
      "The server understands the request but was unable to process it."),
    TooManyRequests := ErrorInfo(
      "Too many requests.",
      "RATE_LIMITED",
      "You have exceeded the number of allowed requests. Please try again later."),
    ServiceUnavailable := ErrorInfo(
      "Service temporarily unavailable.",
      "SERVICE_UNAVAILABLE",
      "The service is under maintenance or temporarily overloaded."),
    GatewayTimeout := ErrorInfo(
      "Gateway timeout.",
      "GATEWAY_TIMEOUT",
      "The server did not receive a timely response from an upstream service."),
    InternalServerError := ErrorInfo(
      "An internal server error occurred.",
      "INTERNAL_SERVER_ERROR",
      "Something went wrong on our server.")
  ]

  /** The status codes the table knows. */
  const RegisteredStatuses: set<int> := {400, 401, 403, 404, 409, 422, 429, 503, 504, 500}

  predicate Complete(e: ErrorInfo) {
    e.message != "" && e.code != "" && e.details != ""
  }

  /** `COMMON_ERRORS[status]`: an entry exactly for the registered codes, every
      one of them a client or server error code with all three fields filled. */
  function Lookup(status: int): (r: Option<ErrorInfo>)
    ensures r.Some? <==> status in RegisteredStatuses
    ensures r.Some? ==> 400 <= status < 600 && Complete(r.value)
  {
    if status in CommonErrors then Some(CommonErrors[status]) else None
  }

  /** The generic server error entry. */
  function InternalError(): (e: ErrorInfo)
    ensures Lookup(InternalServerError) == Some(e)
    ensures e.message == "An internal server error occurred."
    ensures e.code == "INTERNAL_SERVER_ERROR"
    ensures e.details == "Something went wrong on our server."
  {
    CommonErrors[InternalServerError]
  }

  /** `COMMON_ERRORS[status] || COMMON_ERRORS[500]`: never missing. */
  function FallbackFor(status: int): (e: ErrorInfo)
    ensures Complete(e)
    ensures status in RegisteredStatuses ==> Some(e) == Lookup(status)
    ensures status !in RegisteredStatuses ==> e == InternalError()
  {
    match Lookup(status)
    case Some(info) => info
    case None => InternalError()
  }

  /** 502 Bad Gateway has no entry, so its lookup is absent and its fallback
      is the generic 500 entry. */
  lemma NoBadGatewayEntry()
    ensures Lookup(BadGateway) == None
    ensures FallbackFor(BadGateway) == InternalError()
  {
  }

  /** The entry the not-found tests rely on. */
  lemma NotFoundEntry()
    ensures Lookup(NotFound) == Some(ErrorInfo(
      "Resource not found.",
      "NOT_FOUND",
      "The requested resource could not be found."))
  {
  }
}
