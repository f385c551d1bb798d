/** Failure-compatible wrappers shared by every module of the model. */
module Wrappers {

  datatype Option<+T> = None | Some(value: T)

  /** The result of an operation that may throw: Err carries the thrown message. */
  datatype Result<+T, +E> = Ok(value: T) | Err(error: E)
}
