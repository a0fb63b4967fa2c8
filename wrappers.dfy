/** Option and Result, the two failure-carrying datatypes used throughout the model. */
module Wrappers {

  datatype Option<+T> = None | Some(value: T)

  /** A computation that either produced a value or threw. */
  datatype Result<+T, +E> = Ok(value: T) | Err(error: E)
}
