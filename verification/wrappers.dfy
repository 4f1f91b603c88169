/** Failure-carrying result types used in place of Python exceptions. */
module Wrappers {

  datatype Option<+T> = None | Some(value: T)

  /** The outcome of a call that returns nothing on success. */
  datatype Outcome<+E> = Pass | Fail(error: E)

  /** The outcome of a call that returns a value on success. */
  datatype Result<+R, +E> = Ok(value: R) | Err(error: E)
}
