/** Option and Result: how a validation step reports that it failed. */
module Wrappers {

  datatype Option<+T> = None | Some(value: T)

  /** The outcome of a validation step: a value, or the error that aborts
      the whole catalog. `:-` propagates the first error. */
  datatype Result<+T, +E> = Ok(value: T) | Err(error: E) {

    predicate IsFailure() {
      Err?
    }

    function PropagateFailure<U>(): Result<U, E>
      requires Err?
    {
      Err(error)
    }

    function Extract(): T
      requires Ok?
    {
      value
    }
  }
}
