/** Failure-carrying return values shared by every module of the model. */
module Wrappers {

  datatype Option<+T> = None | Some(value: T)

  /** The value of a Go call returning `(T, error)`: either the value or the error. */
  datatype Result<+T, +E> = Ok(value: T) | Err(error: E)
}
