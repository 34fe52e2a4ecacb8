/** Failure-carrying results, standing in for the exceptions the ledger's Python code raises. */
module Wrappers {

  datatype Option<+T> = None | Some(value: T)

  /** A computation that either yields a value or raises an error. */
  datatype Result<+R, +E> = Success(value: R) | Failure(error: E)

  /** A check that either passes or fails with an error, and carries no value. */
  datatype Outcome<+E> = Pass | Fail(error: E)
}
