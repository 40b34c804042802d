/** Optional values and results with an error, used where the C++ code throws or finds nothing. */
module Wrappers {
  datatype Option<T> = None | Some(value: T)

  datatype Result<T, E> = Success(value: T) | Failure(error: E)
}
