/** Failure-carrying datatypes used for the C++ exceptions and null results. */
module Wrappers {

  datatype Option<+T> = None | Some(value: T)

  /** A value, or the error that the C++ code throws instead of returning it. */
  datatype Result<+T, +E> = Success(value: T) | Failure(error: E) {
    predicate IsFailure() { Failure? }

    function PropagateFailure<U>(): Result<U, E>
      requires Failure?
    {
      Failure(error)
    }

    function Extract(): T
      requires Success?
    {
      value
    }
  }

  /** The outcome of a C++ function that returns nothing but may throw. */
  datatype Outcome<+E> = Pass | Fail(error: E)
}
