/** Failure-compatible results shared by the models. */
module Wrappers {

  datatype Option<+T> = None | Some(value: T)

  /** A call that either returns normally with a value, or throws. */
  datatype Result<+T, +E> = Success(value: T) | Failure(error: E)
}
