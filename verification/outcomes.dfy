/** Failure-carrying result types shared by the other modules. */
module Outcomes {

  datatype Option<+T> = None | Some(value: T)

  /** A value, or the error that the original code raises instead of returning one. */
  datatype Result<+T, +E> = Ok(value: T) | Err(error: E)

  /** Success, or the error that aborted an operation that returns nothing. */
  datatype Outcome<+E> = Pass | Fail(error: E)
}
