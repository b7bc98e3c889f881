/** Option and Result datatypes shared by the plugin modules. */
module Wrappers {

  /** A value that may be absent: Go's nil interface, pointer or error. */
  datatype Option<+T> = None | Some(value: T)

  /** The outcome of an operation that either produces a value or fails with an error. */
  datatype Result<+T, +E> = Success(value: T) | Failure(error: E)
}
