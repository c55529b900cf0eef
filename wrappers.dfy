/** Wrappers for Go's nil-pointer and `(value, error)` idioms. */
module Wrappers {

  /** A Go pointer or optional field: `None` is nil. */
  datatype Option<+T> = None | Some(value: T)

  /** A Go `(value, error)` pair where exactly one side is meaningful. */
  datatype Result<+T, +E> = Success(value: T) | Failure(error: E)
}
