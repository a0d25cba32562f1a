/** Optional values and results of operations that can fail. */
module Wrappers {

  /** An optional value; `None` stands for a missing (null or empty) value. */
  datatype Option<+T> = None | Some(value: T)

  /** The outcome of an operation that either succeeds with a value or fails with an error. */
  datatype Result<+T, +E> = Success(value: T) | Failure(error: E)
}
