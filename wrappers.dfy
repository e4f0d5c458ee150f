/** Option and Result values for operations that can fail. */
module Wrappers {

  datatype Option<+T> = None | Some(value: T)

  /** The value-or-error pair that the Go code returns as `(T, error)`. */
  datatype Result<+T, +E> = Ok(value: T) | Err(error: E)
}
