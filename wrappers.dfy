/** Failure-compatible wrappers: a Java reference that may be null, and a
    computation that may throw. */
module Wrappers {

  /** A value that may be absent (a Java reference that may be null). */
  datatype Option<+T> = None | Some(value: T) {
    function GetOr(default: T): T {
      match this
      case Some(v) => v
      case None => default
    }
  }

  /** The result of a Java call that either returns a value or throws. */
  datatype Result<+R, +E> = Success(value: R) | Failure(error: E) {
    predicate IsFailure() { Failure? }
    function PropagateFailure<U>(): Result<U, E>
      requires Failure?
    {
      Failure(error)
    }
    function Extract(): R
      requires Success?
    {
      value
    }
  }

  /** The outcome of a Java call that returns nothing or throws. */
  datatype Outcome<+E> = Pass | Fail(error: E)
}
