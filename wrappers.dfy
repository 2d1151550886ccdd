/** Option and Result, used where the source returns None or raises. */
module Wrappers {

  datatype Option<+T> = None | Some(value: T)

  /** The exceptions the modelled Python code can raise, by kind. */
  datatype Error =
    | ValueError(message: string)
    | KeyError(key: string)
    | IndexError
    | TypeError

  datatype Result<+T> = Ok(value: T) | Err(error: Error)
}
