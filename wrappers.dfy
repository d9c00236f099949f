/** Failure-compatible wrappers used across the model. */
module Wrappers {

  /** A value that may be absent (Go's nil pointer or nil error). */
  datatype Option<+T> = None | Some(value: T)

  /** The outcome of a call that returns either a value or an error. */
  datatype Result<+T, +E> = Ok(value: T) | Err(error: E)
}
