/** Failure-compatible wrappers: `Option` for a value that may be absent and
    `Result` for a computation that either produces a value or raises an error. */
module Wrappers {

  datatype Option<+T> = None | Some(value: T)

  /** `Err` plays the part of a raised exception; `:-` propagates it. */
  datatype Result<+T, +E> = Ok(value: T) | Err(error: E) {

    predicate IsFailure() {
      Err?
    }

    function PropagateFailure<U>(): Result<U, E>
      requires Err?
    {
      Err(error)
    }

    function Extract(): T
      requires Ok?
    {
      value
    }
  }
}
