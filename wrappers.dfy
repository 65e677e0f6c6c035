/** Option and Result, standing for Go's nil-able values and `(T, error)` pairs. */
module Wrappers {

  /** Some/None, standing for a Go `error` that may be nil. */
  datatype Option<+T> = None | Some(value: T)

  /** A value or an error, standing for Go's `(T, error)` result pairs. */
  datatype Result<+T, +E> = Success(value: T) | Failure(error: E)
}
