/** Failure-compatible result types shared by the model's modules. */
module Wrappers {

  /** An optional value. */
  datatype Option<+T> = None | Some(value: T)

  /** A computation that either produced a value or failed with an error. */
  datatype Result<+R, +E> = Success(value: R) | Failure(error: E)

  /** A computation with no value that either passed or failed with an error. */
  datatype Outcome<+E> = Pass | Fail(error: E)
}
