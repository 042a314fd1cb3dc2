/** Option and Result: the source's `None` values and the exceptions it raises. */
module Wrappers {

  datatype Option<T> = None | Some(value: T)

  /** A value, or the error that aborted its computation. */
  datatype Result<T, E> = Ok(value: T) | Err(error: E) {
    predicate IsFailure() { Err? }

    function PropagateFailure<U>(): Result<U, E>
      requires Err?
    {
      Err(error)
    }

    function Extract(): T
      requires Ok?
    {
      value
    }
  }

  /** The outcome of a method that writes to a stream: it finished, or it raised. */
  datatype Outcome<E> = Pass | Fail(error: E)
}
