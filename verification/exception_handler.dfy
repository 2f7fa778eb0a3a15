/** The controller advice that turns domain failures into HTTP error responses. */
module GlobalExceptionHandler {
  import opened Wrappers
  import opened Failures

  const NOT_FOUND := 404
  const CONFLICT := 409

  /** The error body's `message` and the response status; the body's timestamp is not modelled. */
  datatype ErrorResponse = ErrorResponse(status: int, message: string)

  /**
   * The response a failure is translated into, or `None` when no handler here
   * catches it and it escapes as an internal error.
   */
  function Handle(f: Failure): (r: Option<ErrorResponse>)
    ensures r.Some? <==> !f.Unhandled?
    ensures r.Some? ==> r.value.message == f.message
    ensures r.Some? ==> (r.value.status == NOT_FOUND <==> f.NotFound?)
    ensures r.Some? ==> (r.value.status == CONFLICT <==> f.Conflict?)
  {
    match f
    case NotFound(m) => Some(ErrorResponse(NOT_FOUND, m))
    case Conflict(m) => Some(ErrorResponse(CONFLICT, m))
    case Unhandled => None
  }

  /** The response loses nothing: from it one recovers both the failure's kind and its message. */
  lemma HandleInjective(f: Failure, g: Failure)
    requires Handle(f).Some? && Handle(f) == Handle(g)
    ensures f == g
  {
  }
}
