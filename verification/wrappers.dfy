/** Optional values and success/failure results shared by the session and the compositor. */
module Wrappers {

  /** A value that may be absent: JavaScript's `T | null`. */
  datatype Option<+T> = None | Some(value: T)

  /** The settled outcome of an operation that either produces a value or rejects with an error. */
  datatype Result<+T, +E> = Success(value: T) | Failure(error: E)
}
