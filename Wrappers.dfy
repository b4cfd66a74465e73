/** Failure-compatible wrappers used throughout the model. */
module Wrappers {

  /** An optional value; `None` also stands for the NaN that pandas writes for a missing entry. */
  datatype Option<+T> = None | Some(value: T)

  /** The outcome of an operation that can raise. */
  datatype Result<+T, +E> = Ok(value: T) | Err(error: E)
}
