/** Failure-carrying values for the fallible calls of the app:
    Swift optionals become Option, `throws` becomes Result or Outcome. */
module Wrappers {

  datatype Option<+T> = None | Some(value: T)

  /** The result of a throwing Swift call that returns a value. */
  datatype Result<+R, +E> = Success(value: R) | Failure(error: E)

  /** The result of a throwing Swift call that returns nothing. */
  datatype Outcome<+E> = Pass | Fail(error: E)
}
