/** Option and Result, the failure-carrying wrappers the rest of the model returns. */
module Base {

  datatype Option<+T> = None | Some(value: T)

  /** A result that `:-` can unwrap: `Err` stops the computation. */
  datatype Result<+T, +E> = Ok(value: T) | Err(error: E) {
    predicate IsFailure() { Err? }

    function PropagateFailure<U>(): Result<U, E>
      requires Err?
    {
      Err(error)
    }

    function Extract(): T
      requires Ok?
    {
      value
    }
  }
}
