/** Error-carrying results, standing for Go's `(value, error)` and bare `error` returns. */
module Results {

  datatype Option<+T> = None | Some(value: T)

  /** A Go function returning `(T, error)`: a value or an error. */
  datatype Result<+T, +E> = Ok(value: T) | Err(error: E)

  /** A Go function returning only `error`: nil (Pass) or an error (Fail). */
  datatype Outcome<+E> = Pass | Fail(error: E)
}
