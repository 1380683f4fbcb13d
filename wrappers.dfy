/** Failure-carrying return values used across the model. */
module Wrappers {

  /** An optional value; `None` plays the role of a null pointer. */
  datatype Option<+T> = None | Some(value: T)

  /** A value or an error, for operations that report failure to their caller. */
  datatype Result<+T, +E> = Ok(value: T) | Err(error: E)
}
