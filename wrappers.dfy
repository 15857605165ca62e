/** Failure-carrying wrappers used throughout the model. */
module Wrappers {

  /** A value that may be absent (a Go nil pointer, a nil error). */
  datatype Option<+T> = None | Some(value: T)

  /** A Go `(value, error)` pair in which exactly one half is meaningful. */
  datatype Result<+T, +E> = Success(value: T) | Failure(error: E)
}
