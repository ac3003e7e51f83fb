/** The older application errors and their mapping to HTTP error responses: unlike the
    shared ones, the not-found and internal errors show their own message. */
module LegacyErrors {
  import opened JsThrown

  datatype AppError =
    | DbConnectionError(message: string, cause: Cause)
    | DbQueryError(operation: string, message: string, cause: Cause)
    | NotFoundError(message: string)
    | InternalError(message: string)

  function Tag(e: AppError): string {
    match e
    case DbConnectionError(_, _) => "DbConnectionError"
    case DbQueryError(_, _, _) => "DbQueryError"
    case NotFoundError(_) => "NotFoundError"
    case InternalError(_) => "InternalError"
  }

  /** `new DbConnectionError({ cause })`. */
  function NewDbConnectionError(cause: Cause): (e: AppError)
    ensures e.DbConnectionError? && e.cause == cause
    ensures e.message == "Database connection failed: " + CauseMessage(cause)
  {
    DbConnectionError("Database connection failed: " + CauseMessage(cause), cause)
  }

  /** `new DbQueryError({ operation, cause })`. */
  function NewDbQueryError(operation: string, cause: Cause): (e: AppError)
    ensures e.DbQueryError? && e.operation == operation && e.cause == cause
    ensures e.message == "Database query failed during " + operation + ": " + CauseMessage(cause)
  {
    DbQueryError(operation, "Database query failed during " + operation + ": " + CauseMessage(cause), cause)
  }

  datatype ApiErrorBody = ApiErrorBody(message: string, code: string)
  datatype ApiErrorResponse = ApiErrorResponse(status: int, error: ApiErrorBody)

  /** `toApiError`: database errors get a fixed message, the other two show their own. */
  function ToApiError(e: AppError): (r: ApiErrorResponse)
    ensures r.error.code == Tag(e)
    ensures r.status == 404 <==> e.NotFoundError?
    ensures r.status == 500 <==> !e.NotFoundError?
    ensures e.NotFoundError? || e.InternalError? ==> r.error.message == e.message
    ensures e.DbConnectionError? ==> r.error.message == "Database connection failed"
    ensures e.DbQueryError? ==> r.error.message == "Database query failed"
  {
    match e
    case DbConnectionError(_, _) => ApiErrorResponse(500, ApiErrorBody("Database connection failed", Tag(e)))
    case DbQueryError(_, _, _) => ApiErrorResponse(500, ApiErrorBody("Database query failed", Tag(e)))
    case NotFoundError(m) => ApiErrorResponse(404, ApiErrorBody(m, Tag(e)))
    case InternalError(m) => ApiErrorResponse(500, ApiErrorBody(m, Tag(e)))
  }

  /** Database failures never expose their operation, message or cause. */
  lemma {:induction false} ToApiErrorHidesDatabaseDetails(e1: AppError, e2: AppError)
    requires Tag(e1) == Tag(e2) && (e1.DbConnectionError? || e1.DbQueryError?)
    ensures ToApiError(e1) == ToApiError(e2)
  {
  }
}
