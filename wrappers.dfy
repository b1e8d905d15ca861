/** Optional values, raised exceptions and the outcome of an operation that may raise. */
module Wrappers {

  datatype Option<+T> = None | Some(value: T)

  /** Python truthiness of an optional string: present and not empty. */
  predicate Truthy(s: Option<string>) { s.Some? && s.value != "" }

  /** A Python exception as the code sees it: its class name, the names of the classes it is an
      instance of (itself included), str(exc), and the optional `status_code`/`detail` attributes
      that HTTP exceptions carry. */
  datatype Exc = Exc(typeName: string, bases: set<string>, message: string,
                     statusCode: Option<int>, detail: Option<string>)
  {
    predicate IsInstance(cls: string) { cls in bases }
  }

  function ValueError(msg: string): Exc { Exc("ValueError", {"ValueError", "Exception"}, msg, None, None) }
  function PermissionError(msg: string): Exc { Exc("PermissionError", {"PermissionError", "OSError", "Exception"}, msg, None, None) }
  /** `msg` is `str(exc)`: for a `KeyError` that is the repr of the missing key, quotes included
      (`str(KeyError("x"))` is `'x'`, not `x`). */
  function KeyError(msg: string): Exc { Exc("KeyError", {"KeyError", "LookupError", "Exception"}, msg, None, None) }
  /** pydantic's `ValidationError` (a `ValueError`), naming the refused fields. */
  function ValidationError(msg: string): Exc
  {
    Exc("ValidationError", {"ValidationError", "ValueError", "Exception"}, msg, None, None)
  }
  function HttpException(code: int, detail: string): Exc
  {
    Exc("HTTPException", {"HTTPException", "Exception"}, detail, Some(code), Some(detail))
  }

  /** Either the value an operation returned or the exception it raised. */
  datatype Outcome<+T> = Ok(value: T) | Raise(exc: Exc)
  {
    predicate Raises(cls: string) { Raise? && exc.IsInstance(cls) }
  }
}
