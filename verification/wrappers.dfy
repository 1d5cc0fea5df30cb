/** Failure-carrying values shared by every module of the model. */
module Wrappers {

  /** A value that may be absent: a JSON field left out of a request, an optional column. */
  datatype Option<+T> = None | Some(value: T)

  /** The outcome of an operation that either yields a value or reports an error. */
  datatype Result<+T, +E> = Ok(value: T) | Err(error: E)

  /** The outcome of an operation that yields nothing on success. */
  datatype Outcome<+E> = Pass | Fail(error: E)

  /** `x ?? d` (and `x || d` for values that cannot be falsy). */
  function OrElse<T>(o: Option<T>, d: T): T
  {
    match o
    case Some(v) => v
    case None => d
  }
}
