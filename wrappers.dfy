/** Failure-carrying values: a missing value, and a success or an error. */
module Wrappers {

  /** A value that may be absent: Python's `None` or a collaborator call that failed. */
  datatype Option<+T> = None | Some(value: T)

  /** The outcome of an operation whose Python counterpart raises on error. */
  datatype Result<+R, +E> = Success(value: R) | Failure(error: E)
}
