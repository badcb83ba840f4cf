/**
  Optional values, and the fallible results a builder operation returns in
  place of throwing an exception.
 */
module Wrappers {

  /** A slot that may be empty: the model of a nullable reference field. */
  datatype Option<+T> = None | Some(value: T)

  /** Either the value an operation returns or the error it throws. */
  datatype Result<+T, +E> = Success(value: T) | Failure(error: E)

  /** The result of a check that returns nothing when it passes. */
  datatype Outcome<+E> = Pass | Fail(error: E)
}
