/** Wrappers standing in for Go's nil pointers and `error` results. */
module Wrappers {

  /** A value that may be absent (a Go pointer or map that may be nil). */
  datatype Option<+T> = None | Some(value: T)

  /** A value or the error that prevented it (Go's `(T, error)` pair). */
  datatype Result<+T, +E> = Success(value: T) | Failure(error: E)

  /** A Go `error` return: nil, or an error. */
  datatype Outcome<+E> = Pass | Fail(error: E)
}
