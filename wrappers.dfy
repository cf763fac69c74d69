/** Failure-carrying values shared by the inference service and the
    dataset preparation script. */
module Wrappers {

  /** A value that may be absent (Python's `None`). */
  datatype Option<+T> = None | Some(value: T)

  /** The outcome of an operation that either returns a value or raises. */
  datatype Result<+T, +E> = Success(value: T) | Failure(error: E)
}
