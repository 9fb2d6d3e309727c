/** Failure-compatible datatypes shared by the whole model. */
module Wrappers {

  /** Go's "value or nil". */
  datatype Option<+T> = None | Some(value: T)

  /** Go's `(value, error)` pair where exactly one side is meaningful. */
  datatype Result<+T, +E> = Success(value: T) | Failure(error: E)

  /** Go's bare `error` return: nil (`Pass`) or an error value. */
  datatype Outcome<+E> = Pass | Fail(error: E)
}
