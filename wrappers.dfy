/** Option and Result values for the Go idioms "value or nil" and "value or error". */
module Wrappers {

  datatype Option<+T> = None | Some(value: T)

  /** A Go `(value, error)` pair where exactly one side is meaningful. */
  datatype Result<+R, +E> = Success(value: R) | Failure(error: E)
}
