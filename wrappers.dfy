/** Option and Result values used where the source returns NaN, undefined or throws. */
module Wrappers {

  /** A value that may be absent. */
  datatype Option<+T> = None | Some(value: T)

  /** The outcome of an operation that either returns a value or throws an error with a message. */
  datatype Result<+R, +E> = Success(value: R) | Failure(error: E)
}
