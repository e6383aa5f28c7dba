/** Failure-compatible datatypes shared by the whole model. */
module Wrappers {

  /** A value that may be absent (Python's `Optional`, `None`). */
  datatype Option<+T> = None | Some(value: T)

  /** The outcome of a step that returns nothing but may raise `error`. */
  datatype Outcome<+E> = Pass | Fail(error: E)

  /** A value or the error raised instead of returning it. */
  datatype Result<+T, +E> = Ok(value: T) | Err(error: E)
}
