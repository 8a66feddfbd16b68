/** Option and Result datatypes used by the key-bit model. */
module Wrappers {

  /** A value that may be missing: Python's `None` versus a present value. */
  datatype Option<+T> = None | Some(value: T)

  /** The outcome of an operation that may raise in the source. */
  datatype Result<+R, +E> = Success(value: R) | Failure(error: E)
}
