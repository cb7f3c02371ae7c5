/** Failure-compatible result types shared by the modules of this model. */
module Wrappers {

  datatype Option<+T> = None | Some(value: T)

  /** A value, or the exception the source throws instead of returning one. */
  datatype Result<+R, +E> = Success(value: R) | Failure(error: E)
}
