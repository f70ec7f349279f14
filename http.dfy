/** Outcomes of the orchestrator's request handlers: either the value the
    handler returns, or the HTTPException it raises (status code and detail). */
module Http {

  /** A JSON value that may be absent or null (Python's None). */
  datatype Option<+T> = None | Some(value: T)

  /** The HTTP errors the coordination layer raises. */
  datatype HttpError =
    | Forbidden(detail: string)   // 403
    | NotFound(detail: string)    // 404
    | BadRequest(detail: string)  // 400

  datatype Result<+T> = Ok(value: T) | Err(error: HttpError)

  /** An optional string read as text, None giving the empty string: both
      `x or ""` (orchestrator.py:208-209) and `"" if v is None else v`
      (orchestrator.py:93) for a string `v`. */
  function OrEmpty(s: Option<string>): string {
    if s.Some? then s.value else ""
  }
}
