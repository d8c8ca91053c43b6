/** Option and Result, the two shapes that stand in for Go's nil pointers and (value, error) pairs. */
module Wrappers {

  /** A value that may be absent: Go's nil pointer or nil map. */
  datatype Option<+T> = None | Some(value: T)

  /** A value or the error that replaced it: Go's (T, error) return pair. */
  datatype Result<+T, +E> = Success(value: T) | Failure(error: E)
}
