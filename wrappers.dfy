/** Failure-compatible wrappers used for Python's `None` and for exceptions. */
module Wrappers {

  /** `None` or a value. */
  datatype Option<+T> = None | Some(value: T)

  /** A value, or the exception raised instead of returning one. */
  datatype Result<+T, +E> = Ok(value: T) | Err(error: E)

  /** A call that returns nothing useful, or the exception it raised. */
  datatype Outcome<+E> = Pass | Fail(error: E)
}
