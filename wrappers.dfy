/** Option and Result, the two failure-carrying types the model uses. */
module Wrappers {

  datatype Option<+T> = None | Some(value: T)

  /** An operation that either produces a value or stops with an error,
      the way a Python exception stops the statement that raised it. */
  datatype Result<+T, +E> = Ok(value: T) | Err(error: E)
}
