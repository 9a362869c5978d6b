/** Option and Result, plus the Python exceptions the modelled code raises. */
module Wrappers {

  datatype Option<+T> = None | Some(value: T)

  datatype Result<+T, +E> = Ok(value: T) | Err(error: E)

  /** The exceptions raised by the Python sources, with their messages. */
  datatype PyError =
    | ValueError(message: string)
    | KeyError(key: string)
    | IndexError
    | TypeError(message: string)

  /** The outcome of a Python call that returns nothing: it returns or it raises. */
  datatype Outcome = Done | Raised(error: PyError)
}
