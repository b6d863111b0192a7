/** Failure-carrying wrappers shared by the whole model. */
module Wrappers {

  /** A value that may be absent; stands for a Java reference that may be null. */
  datatype Option<+T> = None | Some(value: T)

  /** The result of an operation that may throw: either a value or the failure raised. */
  datatype Result<+T, +E> = Ok(value: T) | Err(error: E)
}
