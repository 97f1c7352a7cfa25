/** Failure-compatible wrappers used throughout the model. */
module Wrappers {

  /** An optional value. */
  datatype Option<+T> = None | Some(value: T)

  /** A value or an error. */
  datatype Result<+T, +E> = Ok(value: T) | Err(error: E)

  /** Success without a value, or an error. */
  datatype Outcome<+E> = Pass | Fail(error: E)
}
