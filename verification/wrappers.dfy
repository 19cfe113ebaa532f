/** The wrappers used across the model: an optional value and a
    value-or-error result. */
module Wrappers {

  datatype Option<+T> = None | Some(value: T)

  /** Either the value an operation produced or the error it raised. */
  datatype Result<+T, +E> = Ok(value: T) | Err(error: E)
}
