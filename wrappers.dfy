/** Optional values and results with an error branch, used across the model. */
module Wrappers {

  datatype Option<+T> = None | Some(value: T)

  /** Ok(value) when an operation completes normally, Err(error) when it throws. */
  datatype Result<+T, +E> = Ok(value: T) | Err(error: E)
}
