/** Option and Result, the two failure-carrying shapes the health code returns. */
module Wrappers {

  /** An optional value: `None` or `Some(value)`. */
  datatype Option<+T> = None | Some(value: T) {

    /** The value, or `default` when there is none. */
    function GetOr(default: T): T {
      match this
      case Some(v) => v
      case None => default
    }

    /** Applies `f` to the value, if there is one. */
    function Map<U>(f: T -> U): Option<U> {
      match this
      case Some(v) => Some(f(v))
      case None => None
    }
  }

  /** Either a value (`Ok`) or an error (`Err`). */
  datatype Result<+T, +E> = Ok(value: T) | Err(error: E) {

    /** True if this is an error; lets `:-` stop at it, like Rust's `?`. */
    predicate IsFailure() {
      Err?
    }

    /** The same error, under another value type. */
    function PropagateFailure<U>(): Result<U, E>
      requires Err?
    {
      Err(error)
    }

    /** The value of an `Ok`. */
    function Extract(): T
      requires Ok?
    {
      value
    }

    /** Rewraps the error with `f`, leaving a value untouched. */
    function MapErr<F>(f: E -> F): Result<T, F> {
      match this
      case Ok(v) => Ok(v)
      case Err(e) => Err(f(e))
    }
  }
}
