/** Failure-carrying values shared by every module of the model. */
module Wrappers {

  datatype Option<+T> = None | Some(value: T)

  datatype Result<+T, +E> = Ok(value: T) | Err(error: E)

  /** A success that carries no value, or a failure. */
  datatype Outcome<+E> = Pass | Fail(error: E)
}
