/** Option and Result values used throughout the model. */
module Wrappers {

  datatype Option<T> = None | Some(value: T)

  /** A computed value, or the message of the `ValueError` the program raises instead. */
  datatype Result<T> = Ok(value: T) | Err(msg: string)
}
