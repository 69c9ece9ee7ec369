/** Failure-carrying values shared by every module of the model. */
module Wrappers {

  /** A value that may be absent (Go's nil pointer or a not-found result). */
  datatype Option<+T> = None | Some(value: T)

  /** A value or an error (Go's `(value, error)` pair when exactly one of them is meaningful). */
  datatype Result<+T, +E> = Ok(value: T) | Err(error: E)
}
