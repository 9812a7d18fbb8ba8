/** Option and Result values shared by every module of the model. */
module Wrappers {

  datatype Option<+T> = None | Some(value: T)

  /** The outcome of an operation that can throw: its value, or the kind of error it raised. */
  datatype Result<+T, +E> = Success(value: T) | Failure(error: E)
}
