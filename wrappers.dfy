/** Failure-carrying values used throughout the model. */
module Wrappers {
  datatype Option<T> = None | Some(value: T)

  datatype Result<R, E> = Success(value: R) | Failure(error: E)
}
