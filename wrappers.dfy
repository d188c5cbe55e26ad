/** Optional values, results and pass/fail outcomes, as the Swift code uses
    `Optional`, `throws` and `try`/`catch`. */
module Wrappers {

  /** Swift's `Optional`. */
  datatype Option<+T> = None | Some(value: T) {

    /** Swift's `??` with a plain default. */
    function GetOr(default: T): T {
      match this
      case Some(v) => v
      case None => default
    }

    /** Swift's `??` with an optional on the right: the first present value. */
    function Or(other: Option<T>): Option<T> {
      if Some? then this else other
    }
  }

  /** The value a throwing call returns, or the error it throws. */
  datatype Result<+T, +E> = Ok(value: T) | Err(error: E) {

    predicate IsFailure() {
      Err?
    }

    function PropagateFailure<U>(): Result<U, E>
      requires Err?
    {
      Err(error)
    }

    function Extract(): T
      requires Ok?
    {
      value
    }
  }

  /** A throwing call that returns nothing: it either completes or throws. */
  datatype Outcome<+E> = Pass | Fail(error: E)
}
