/** The shared application errors and their mapping to HTTP error responses. */
module AppErrors {
  import opened JsThrown

  datatype AppError =
    | DbConnectionError(message: string, cause: Cause)
    | DbQueryError(operation: string, message: string, cause: Cause)
    | NotFoundError(message: string)
    | InternalError(message: string)
    | ConfigurationError(message: string)
    | UpstreamRequestError(service: string, message: string, cause: Cause)
    | UpstreamResponseError(service: string, message: string)

  /** The `_tag` of each error class. */
  function Tag(e: AppError): string {
    match e
    case DbConnectionError(_, _) => "DbConnectionError"
    case DbQueryError(_, _, _) => "DbQueryError"
    case NotFoundError(_) => "NotFoundError"
    case InternalError(_) => "InternalError"
    case ConfigurationError(_) => "ConfigurationError"
    case UpstreamRequestError(_, _, _) => "UpstreamRequestError"
    case UpstreamResponseError(_, _) => "UpstreamResponseError"
  }

  /** `new DbConnectionError({ cause })`. */
  function NewDbConnectionError(cause: Cause): (e: AppError)
    ensures e.DbConnectionError? && e.cause == cause
    ensures e.message == "Database connection failed: " + CauseMessage(cause)
  {
    DbConnectionError("Database connection failed: " + CauseMessage(cause), cause)
  }

  /** `new DbQueryError({ operation, cause })`. */
  function NewDbQueryError(operation: string, cause: Cause): (e: AppError)
    ensures e.DbQueryError? && e.operation == operation && e.cause == cause
    ensures e.message == "Database query failed during " + operation + ": " + CauseMessage(cause)
  {
    DbQueryError(operation, "Database query failed during " + operation + ": " + CauseMessage(cause), cause)
  }

  /** `new UpstreamRequestError({ service, cause, message })`: an explicit message wins. */
  function NewUpstreamRequestError(service: string, cause: Cause, message: string, hasMessage: bool): (e: AppError)
    ensures e.UpstreamRequestError? && e.service == service && e.cause == cause
    ensures hasMessage ==> e.message == message
    ensures !hasMessage ==> e.message == "Upstream request to " + service + " failed: " + CauseMessage(cause)
  {
    UpstreamRequestError(service,
      if hasMessage then message else "Upstream request to " + service + " failed: " + CauseMessage(cause),
      cause)
  }

  datatype ApiErrorBody = ApiErrorBody(message: string, code: string)
  datatype ApiErrorResponse = ApiErrorResponse(status: int, error: ApiErrorBody)

  /** `toApiError`: a status and a fixed public message per error class; the code is the tag. */
  function ToApiError(e: AppError): (r: ApiErrorResponse)
    ensures r.error.code == Tag(e)
    ensures r.status == 404 <==> e.NotFoundError?
    ensures r.status == 502 <==> e.UpstreamRequestError? || e.UpstreamResponseError?
    ensures r.status == 500 <==> e.DbConnectionError? || e.DbQueryError? || e.InternalError? || e.ConfigurationError?
    ensures e.DbConnectionError? ==> r.error.message == "Database connection failed"
    ensures e.DbQueryError? ==> r.error.message == "Database query failed"
    ensures e.NotFoundError? ==> r.error.message == "Not Found"
    ensures e.InternalError? ==> r.error.message == "Internal Server Error"
    ensures e.ConfigurationError? ==> r.error.message == "Server configuration error"
    ensures e.UpstreamRequestError? ==> r.error.message == "Upstream request failed"
    ensures e.UpstreamResponseError? ==> r.error.message == "Upstream response failed"
  {
    match e
    case DbConnectionError(_, _) => ApiErrorResponse(500, ApiErrorBody("Database connection failed", Tag(e)))
    case DbQueryError(_, _, _) => ApiErrorResponse(500, ApiErrorBody("Database query failed", Tag(e)))
    case NotFoundError(_) => ApiErrorResponse(404, ApiErrorBody("Not Found", Tag(e)))
    case InternalError(_) => ApiErrorResponse(500, ApiErrorBody("Internal Server Error", Tag(e)))
    case ConfigurationError(_) => ApiErrorResponse(500, ApiErrorBody("Server configuration error", Tag(e)))
    case UpstreamRequestError(_, _, _) => ApiErrorResponse(502, ApiErrorBody("Upstream request failed", Tag(e)))
    case UpstreamResponseError(_, _) => ApiErrorResponse(502, ApiErrorBody("Upstream response failed", Tag(e)))
  }

  /** Tags identify error classes: two errors with the same tag are of the same class. */
  lemma {:induction false} TagDeterminesClass(e1: AppError, e2: AppError)
    requires Tag(e1) == Tag(e2)
    ensures e1.DbConnectionError? == e2.DbConnectionError? && e1.DbQueryError? == e2.DbQueryError?
    ensures e1.NotFoundError? == e2.NotFoundError? && e1.InternalError? == e2.InternalError?
    ensures e1.ConfigurationError? == e2.ConfigurationError?
    ensures e1.UpstreamRequestError? == e2.UpstreamRequestError? && e1.UpstreamResponseError? == e2.UpstreamResponseError?
  {
  }

  /** The response depends on the class only: no message, operation, service or cause
      reaches the client. */
  lemma {:induction false} ToApiErrorHidesDetails(e1: AppError, e2: AppError)
    requires Tag(e1) == Tag(e2)
    ensures ToApiError(e1) == ToApiError(e2)
  {
    TagDeterminesClass(e1, e2);
  }
}
