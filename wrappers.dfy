/** Failure-compatible wrappers used for the optional values and error returns of the server. */
module Wrappers {

  /** A value that may be absent: Go's nil pointer or missing map entry, Python's None. */
  datatype Option<+T> = None | Some(value: T)

  /** The (value, error) pair of a Go function, or a Python call that may raise. */
  datatype Result<+T, +E> = Success(value: T) | Failure(error: E)
}
