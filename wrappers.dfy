/** Option and Result values for nil returns and raised errors. */
module Wrappers {

  /** Ruby's `nil` or a value. */
  datatype Option<+T> = None | Some(value: T)

  /** A normal return, or the error a Ruby method would raise. */
  datatype Result<+R, +E> = Success(value: R) | Failure(error: E)
}
