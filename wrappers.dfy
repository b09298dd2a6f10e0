/** Option and Result, the two failure-carrying shapes the rest of the model uses. */
module Wrappers {

  datatype Option<+T> = None | Some(value: T)

  /** A value or an error message (the message a Python exception would carry). */
  datatype Result<+T> = Ok(value: T) | Err(message: string)
}
