/** Failure-compatible wrappers used across the model: an optional value, a
    pass/fail outcome and a value-or-error result. */
module Wrappers {

  datatype Option<+T> = None | Some(value: T)

  /** The outcome of a check that returns nothing but may raise. */
  datatype Outcome<+E> = Pass | Fail(error: E)

  /** The outcome of an operation that returns a value or raises. */
  datatype Result<+R, +E> = Success(value: R) | Failure(error: E)
}
