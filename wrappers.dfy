/** Option and Result values shared by the modules of the model. */
module Wrappers {

  /** A value that may be absent: `None` stands for Java's `null`. */
  datatype Option<+T> = None | Some(value: T)

  /** The outcome of an operation that may throw: `Err` carries the exception. */
  datatype Result<+T, +E> = Ok(value: T) | Err(error: E) {

    /** An exception was thrown; `:-` passes it on to the caller. */
    predicate IsFailure() {
      Err?
    }

    /** The same exception, as the outcome of an operation with another result type. */
    function PropagateFailure<U>(): Result<U, E>
      requires Err?
    {
      Err(error)
    }

    /** The value of a call that returned normally. */
    function Extract(): T
      requires Ok?
    {
      value
    }
  }
}
