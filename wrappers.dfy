/** Failure-compatible result type shared by every module of the model.
    A Python exception raised by the modelled code becomes an `Err` carrying the
    exception class and, where the source builds one, its exact message. */
module Wrappers {

  datatype Option<+T> = None | Some(value: T)

  /** The Python exception classes the modelled code raises (or lets escape). */
  datatype Error =
    | ValueError(message: string)
    | KeyError(key: string)
    | TypeError(message: string)
    | AttributeError(message: string)
    | IndexError(message: string)
    | OSError(path: string)
      /** A bare `raise Exception(message)`. */
    | Raised(message: string)

  datatype Result<+T> = Ok(value: T) | Err(error: Error) {
    predicate IsFailure() { Err? }

    function PropagateFailure<U>(): Result<U>
      requires Err?
    {
      Err(error)
    }

    function Extract(): T
      requires Ok?
    {
      value
    }
  }
}
