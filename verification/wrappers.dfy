/** Failure-carrying wrappers used for the program's error paths. */
module Wrappers {

  /** A value that may be absent. */
  datatype Option<+T> = None | Some(value: T)

  /** A value, or the error that prevented computing it (Go's `(T, error)` pair). */
  datatype Result<+R, +E> = Success(value: R) | Failure(error: E)
}
