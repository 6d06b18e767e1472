/** Failure-carrying values: Go's `(T, error)` and bare `error` results. */
module Wrappers {

  /** A value that may be absent (a nil error, a missing map entry). */
  datatype Option<+T> = None | Some(value: T)

  /** A Go `(T, error)` pair where exactly one side is meaningful. */
  datatype Result<+T, +E> = Success(value: T) | Failure(error: E)
}
