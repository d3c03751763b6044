/** Failure-compatible wrapper types used across the model. */
module Wrappers {

  /** A value that may be missing (Ruby's `nil`). */
  datatype Option<+T> = None | Some(value: T)

  /** The result of an operation that can raise. */
  datatype Result<+R, +E> = Success(value: R) | Failure(error: E)
}
