/** Failure-compatible wrappers used across the model. */
module Wrappers {

  /** A value that may be absent, as a query-string argument may be. */
  datatype Option<+T> = None | Some(value: T)

  /** The outcome of an operation that can raise an error in the source. */
  datatype Result<+T, +E> = Success(value: T) | Failure(error: E)
}
