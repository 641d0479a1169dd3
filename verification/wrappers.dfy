/** Option and Result values standing in for Go's nil pointers and
    (value, error) return pairs. */
module Wrappers {

  /** A value that may be absent (a nil pointer or nil error in Go). */
  datatype Option<+T> = None | Some(value: T)

  /** A value or the error that prevented computing it. */
  datatype Result<+R, +E> = Success(value: R) | Failure(error: E)
}
