/**
 * What a FastAPI handler hands back: a response body, or the status code
 * and detail of the `HTTPException` it raises.
 */
module Http {
  import opened Decimal

  datatype Response<T> = Ok(value: T) | Failure(code: int, detail: string)

  /** `str(exc)` for an `HTTPException`: the code, a colon and the detail. */
  function ExceptionText(code: int, detail: string): (s: string)
    ensures |s| >= |detail| + 3
    ensures s[|s| - |detail|..] == detail && s[|s| - |detail| - 2..|s| - |detail|] == ": "
    ensures s[..|s| - |detail| - 2] == IntToString(code)
  {
    IntToString(code) + ": " + detail
  }
}
