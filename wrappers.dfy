/**
 * Optional values, and results that are either a value or the Python
 * exception the modelled code would raise.
 */
module Wrappers {

  datatype Option<T> = None | Some(value: T)

  /** The exceptions the modelled code can raise on bad input. */
  datatype Error =
    | ZeroDivisionError
    | KeyError(key: int)
    | ValueError
    | IndexError
    | StopIteration
    | RuntimeError

  datatype Result<T> = Success(value: T) | Failure(error: Error)
}
