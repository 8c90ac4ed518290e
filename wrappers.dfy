/** Failure-carrying values shared by every module of the model. */
module Wrappers {

  datatype Option<T> = None | Some(value: T)

  /** The Python exceptions the modelled code raises or lets propagate. */
  datatype Error =
    | KeyError
    | IndexError
    | TypeError
    | ValueError
    | ConnectionError
    | TimeoutError

  /** The outcome of a call that either returns a value or raises. */
  datatype Result<T> = Ok(value: T) | Err(error: Error) {
    predicate IsFailure() { Err? }

    function PropagateFailure<U>(): Result<U>
      requires Err?
    {
      Err(error)
    }

    function Extract(): T
      requires Ok?
    {
      value
    }
  }
}
