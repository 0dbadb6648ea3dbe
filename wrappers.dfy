/**
 * Option and Result: the shapes of Rust's `Option<T>` and `Result<T, E>`.
 * Result is failure-compatible, so `:-` plays the part of Rust's `?`.
 */
module Wrappers {

  datatype Option<+T> = None | Some(value: T)

  datatype Result<+T, +E> = Ok(value: T) | Err(error: E) {

    predicate IsFailure() {
      Err?
    }

    function PropagateFailure<U>(): Result<U, E>
      requires Err?
    {
      Err(error)
    }

    function Extract(): T
      requires Ok?
    {
      value
    }

    /** Converts the error with `wrap`, as Rust's `?` does through `From`. */
    function MapFailure<NewE>(wrap: E -> NewE): Result<T, NewE>
    {
      match this
      case Ok(v) => Ok(v)
      case Err(e) => Err(wrap(e))
    }
  }
}
