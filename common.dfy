/** Failure-carrying wrappers shared by every module: an optional value, and the
    outcome of a route handler, which is either a value or the HTTP error the
    handler raises. */
module Common {

  datatype Option<+T> = None | Some(value: T)

  /** An HTTPException as FastAPI turns it into a response: a status code and a
      human-readable detail. */
  datatype HttpError = HttpError(status: int, detail: string)

  datatype Result<+T> = Ok(value: T) | Err(error: HttpError)

  /** A check that either passes or raises. */
  datatype Outcome = Pass | Fail(error: HttpError)

  /** FastAPI's answer to an exception nobody catches. */
  const INTERNAL_ERROR := HttpError(500, "Internal Server Error")

  function Min(a: int, b: int): int { if a <= b then a else b }
  function Max(a: int, b: int): int { if a >= b then a else b }

  /** A partial update's field: the new value when one is given. */
  function Sobre<T>(nuevo: Option<T>, actual: T): T
  {
    if nuevo.Some? then nuevo.value else actual
  }
}
