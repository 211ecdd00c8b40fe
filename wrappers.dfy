/** Option and Result, the failure-carrying values used across the model. */
module Wrappers {

  datatype Option<+T> = None | Some(value: T)

  /** An operation that either produces a value or fails with an error
      (the model's stand-in for a raised Python exception). */
  datatype Result<+R, +E> = Ok(value: R) | Err(error: E)
}
