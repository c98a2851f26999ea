/** Failure-carrying return values, standing in for the exceptions the
    allocation code raises. */
module Wrappers {

  datatype Option<+T> = None | Some(value: T)

  /** A value or the exception that was raised instead of returning it. */
  datatype Result<+T, +E> = Ok(value: T) | Err(error: E)

  /** The outcome of an operation that returns nothing unless it raises. */
  datatype Outcome<+E> = Pass | Fail(error: E)
}
