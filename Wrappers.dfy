/** Option and Result, the two ways Go's `(value, error)` pairs are returned here. */
module Wrappers {

  datatype Option<+T> = None | Some(value: T)

  /** A Go result pair: a value with a nil error, or an error. */
  datatype Result<+R, +E> = Success(value: R) | Failure(error: E)
}
