/** Failure-carrying values shared by every module of the project. */
module Outcomes {
  datatype Option<+T> = None | Some(value: T)

  /** A computed value, or the error the source raises. */
  datatype Result<+T, +E> = Ok(value: T) | Err(error: E)
}
