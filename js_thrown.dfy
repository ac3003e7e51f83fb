/** What a `catch` clause can receive, as far as the error constructors look at it:
    an `Error` instance (only its class name and message matter) or any other value,
    seen through `String(value)`. */
module JsThrown {

  datatype Cause = ErrorInstance(name: string, message: string) | NonError(text: string)

  /** `cause instanceof Error ? cause.message : String(cause)`. */
  function CauseMessage(c: Cause): (m: string)
    ensures c.ErrorInstance? ==> m == c.message
    ensures c.NonError? ==> m == c.text
  {
    match c
    case ErrorInstance(_, message) => message
    case NonError(text) => text
  }
}
