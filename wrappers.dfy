/** Failure-carrying results shared by the store and the machine. */
module Wrappers {

  /** A value, or the error that stopped its computation. */
  datatype Result<+T, +E> = Ok(value: T) | Err(error: E)

  /** The result of an operation that only changes state. */
  datatype Outcome<+E> = Pass | Fail(error: E)
}
