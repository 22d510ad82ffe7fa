/** The result types shared by every module. */
module Wrappers {

  datatype Option<+T> = None | Some(value: T) {
    predicate IsFailure() {
      None?
    }

    function PropagateFailure<U>(): Option<U>
      requires None?
    {
      None
    }

    function Extract(): T
      requires Some?
    {
      value
    }
  }

  /** The value of a call that may raise an application error. */
  datatype Result<+T, +E> = Success(value: T) | Failure(error: E) {
    predicate IsFailure() {
      Failure?
    }

    function PropagateFailure<U>(): Result<U, E>
      requires Failure?
    {
      Failure(error)
    }

    function Extract(): T
      requires Success?
    {
      value
    }
  }

  /** The outcome of a call that returns nothing but may raise. */
  datatype Outcome<+E> = Done | Raised(error: E) {
    predicate IsFailure() {
      Raised?
    }

    function PropagateFailure<U>(): Result<U, E>
      requires Raised?
    {
      Failure(error)
    }
  }

  /** Python's `a or b` on optional strings: an empty string also falls through to `b`. */
  function OrElse(a: Option<string>, b: Option<string>): Option<string> {
    if a.Some? && a.value != "" then a else b
  }
}
