/** Failure-carrying result types shared by every module of the model. */
module Wrappers {

  datatype Option<+T> = None | Some(value: T)

  /** A value or the error that prevented computing it (Go's `(T, error)` pair). */
  datatype Result<+R, +E> = Success(value: R) | Failure(error: E)

  /** The outcome of an operation that returns only `error` in Go. */
  datatype Outcome<+E> = Pass | Fail(error: E)
}
