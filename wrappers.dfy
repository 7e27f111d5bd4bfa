/** Optional values and results with an error, used for Python's `None` and raised HTTP errors. */
module Wrappers {

  /** A value that may be absent (Python's `Optional[...]`). */
  datatype Option<+T> = None | Some(value: T)

  /** Either a value or an error (a return value or a raised exception). */
  datatype Result<+T, +E> = Success(value: T) | Failure(error: E)
}
