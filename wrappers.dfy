/** Option and Result, standing in for Go's nil pointers and (value, error) pairs. */
module Wrappers {

  /** `None` plays Go's nil for an optional value such as `*int`. */
  datatype Option<+T> = None | Some(value: T)

  /** The outcome of a call that returns either a value or an error. */
  datatype Result<+R, +E> = Success(value: R) | Failure(error: E)
}
