/** Optional values and results with an error case. */
module Wrappers {

  /** A value that may be absent (Python's `None`). */
  datatype Option<+T> = None | Some(value: T)

  /** The outcome of an operation that can fail. */
  datatype Result<+R, +E> = Success(value: R) | Failure(error: E)
}
