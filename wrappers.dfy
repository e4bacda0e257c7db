/** The optional value and the success-or-exception result used by the model. */
module Wrappers {

  datatype Option<T> = None | Some(value: T)

  /** A computation that either returns a value or raises the given exception;
      `:-` propagates the exception, as Python does when nothing catches it. */
  datatype Result<T, E> = Ok(value: T) | Err(error: E) {
    predicate IsFailure() {
      Err?
    }

    function PropagateFailure<U>(): Result<U, E>
      requires Err?
    {
      Err(error)
    }

    function Extract(): T
      requires Ok?
    {
      value
    }
  }
}
