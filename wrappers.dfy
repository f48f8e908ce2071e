/** Failure-carrying wrappers used throughout the model. */
module Wrappers {

  /** A value that may be absent (Python's `None`). */
  datatype Option<+T> = None | Some(value: T)

  /** The outcome of a computation that returns a value or raises an error. */
  datatype Result<+T, +E> = Success(value: T) | Failure(error: E)

  /** The outcome of a computation that returns nothing or raises an error. */
  datatype Outcome<+E> = Pass | Fail(error: E)
}
