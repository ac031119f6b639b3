/** Failure-carrying return values, standing in for Go's `(value, error)`
    and bare `error` returns. */
module Results {

  /** A Go pointer that may be nil. */
  datatype Option<+T> = None | Some(value: T)

  /** A Go `(*T, error)` pair where exactly one side is set. */
  datatype Result<+T, +E> = Success(value: T) | Failure(error: E)

  /** A Go `error` return: nil (`Pass`) or an error value (`Fail`). */
  datatype Outcome<+E> = Pass | Fail(error: E)
}
