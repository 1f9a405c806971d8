/** Failure-carrying wrappers shared by every module of the model. */
module Wrappers {

  /** An optional value: `None` stands for a missing or unparseable value. */
  datatype Option<+T> = None | Some(value: T)

  /** The outcome of an operation that can raise. */
  datatype Result<+T, +E> = Ok(value: T) | Err(error: E)
}
