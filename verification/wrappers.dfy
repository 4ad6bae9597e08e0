/** Failure-carrying values: an optional value and a success-or-error result. */
module Wrappers {

  /** A value that may be absent (JavaScript's `null` / `NaN`). */
  datatype Option<+T> = None | Some(value: T)

  /** The outcome of an operation that can fail with an error tag. */
  datatype Result<+R, +E> = Success(value: R) | Failure(error: E)
}
