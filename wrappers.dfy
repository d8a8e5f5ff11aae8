/** Option and Result, the two failure-carrying shapes the model needs. */
module Wrappers {

  datatype Option<+T> = None | Some(value: T)

  /** A Go `(value, error)` pair in which exactly one half is meaningful. */
  datatype Result<+R, +E> = Success(value: R) | Failure(error: E)
}
