/** Failure-carrying datatypes shared by the whole model.

    - Option<T> stands for a pandas value that may be NaN (None) and for a
      forecast that may be unavailable.
    - Result<T> stands for an operation that may raise one of the Python
      exceptions the modelled code lets escape.
 */
module Wrappers {

  datatype Option<+T> = None | Some(value: T)

  /** The Python exceptions that escape from the modelled operations. */
  datatype Error =
    | KeyError(key: string)
    | ValueError(reason: string)
    | AttributeError(name: string)
    | ZeroDivisionError

  datatype Result<+T> = Ok(value: T) | Err(error: Error)
}
