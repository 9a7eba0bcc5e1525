/** Failure-carrying wrappers used throughout the model. */
module Outcomes {

  /** A value that may be absent: Ruby's nil. */
  datatype Option<+T> = None | Some(value: T)

  /** A computation that either returns a value or raises. */
  datatype Result<+T, +E> = Ok(value: T) | Err(error: E)
}
