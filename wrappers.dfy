/** Option and Result types shared by the model. */
module Wrappers {

  datatype Option<+T> = None | Some(value: T)

  /** The outcome of an operation that may throw; `Failure` carries the error. */
  datatype Result<+T, +E> = Success(value: T) | Failure(error: E)
}
