/** Failure-compatible result types shared by every module of the model. */
module Wrappers {

  /** A value that may be absent: a Go nil pointer, a nil error or a missing map entry. */
  datatype Option<+T> = None | Some(value: T)

  /** A value or the error that replaced it: Go's `(T, error)` pair where only one half matters. */
  datatype Result<+T, +E> = Ok(value: T) | Err(error: E)
}
