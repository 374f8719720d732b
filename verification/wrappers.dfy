/** Result types used throughout the model. */
module Wrappers {

  /** A value that may be missing, like Python's `None`. */
  datatype Option<+T> = None | Some(value: T)

  /** Either the value an operation returns or the exception it raises. */
  datatype Result<+T, +E> = Success(value: T) | Failure(error: E)
}
