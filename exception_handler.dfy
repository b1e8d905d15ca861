/** `GlobalExceptionMiddleware`: a request that raises is answered with a JSON error whose status
    follows the exception's class. The console printing and the system-log write are left out;
    whether the write succeeds is an input that the answer does not depend on. */
module ExceptionHandler {
  import opened Wrappers
  import opened Text

  /** A JSON response `{"detail": detail}` with its status code. */
  datatype Response = Response(statusCode: int, detail: string)

  const InternalError: string := "Internal server error"

  /** The status and detail chosen for a raised exception, checked in source order: a
      `ValueError` (pydantic's `ValidationError` included) is 400, a `PermissionError` 403, a
      `KeyError` 404, a class whose name contains "HTTPException" answers with its own
      `status_code` and `detail` (500 and `str(exc)` when absent), and anything else is 500
      without the message. */
  function ErrorResponse(exc: Exc): (r: Response)
    ensures r.statusCode in {400, 403, 404, 500} || (exc.statusCode.Some? && r.statusCode == exc.statusCode.value)
    ensures r.statusCode == 500 && !Contains(exc.typeName, "HTTPException") ==>
      r.detail == InternalError
  {
    if exc.IsInstance("ValueError") then Response(400, exc.message)
    else if exc.IsInstance("PermissionError") then Response(403, exc.message)
    else if exc.IsInstance("KeyError") then Response(404, exc.message)
    else if Contains(exc.typeName, "HTTPException") then
      Response(if exc.statusCode.Some? then exc.statusCode.value else 500,
               if exc.detail.Some? then exc.detail.value else exc.message)
    else Response(500, InternalError)
  }

  /** `dispatch`: the downstream response unchanged, or the error response of what it raised. */
  function Dispatch(downstream: Outcome<Response>, logWriteSucceeded: bool): (r: Response)
    ensures downstream.Ok? ==> r == downstream.value
    ensures downstream.Raise? ==> r == ErrorResponse(downstream.exc)
  {
    match downstream
    case Ok(resp) => resp
    case Raise(exc) => ErrorResponse(exc)
  }

  /** A failed system-log write changes nothing in the answer. */
  lemma LogWriteIrrelevant(downstream: Outcome<Response>)
    ensures Dispatch(downstream, true) == Dispatch(downstream, false)
  {
  }

  /** The exceptions the services raise map as their docstrings say, with `str(exc)` as the
      detail. */
  lemma ServiceExceptions(msg: string, code: int, detail: string)
    ensures ErrorResponse(ValueError(msg)) == Response(400, msg)
    ensures ErrorResponse(ValidationError(msg)) == Response(400, msg)
    ensures ErrorResponse(PermissionError(msg)) == Response(403, msg)
    ensures ErrorResponse(KeyError(msg)) == Response(404, msg)
    ensures ErrorResponse(HttpException(code, detail)) == Response(code, detail)
  {
    assert OccursAt("HTTPException", "HTTPException", 0);
  }

  /** Any other exception is answered with 500 and a fixed detail, so its message does not
      leak. */
  lemma OtherExceptionsHidden(exc: Exc)
    requires !exc.IsInstance("ValueError") && !exc.IsInstance("PermissionError") && !exc.IsInstance("KeyError")
    requires !Contains(exc.typeName, "HTTPException")
    ensures ErrorResponse(exc) == Response(500, InternalError)
  {
  }
}
