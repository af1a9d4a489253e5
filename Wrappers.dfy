/** Failure-carrying values used for Python's exceptions and missing values. */
module Wrappers {

  /** A value that may be absent (Python's `None`). */
  datatype Option<+T> = None | Some(value: T)

  /** Either a value or the exception that was raised instead of producing it. */
  datatype Result<+R, +E> = Success(value: R) | Failure(error: E)

  /** A step that either completes or raises, with no value of its own. */
  datatype Outcome<+E> = Pass | Fail(error: E)
}
