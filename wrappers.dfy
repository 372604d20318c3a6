/** Optional values and value-or-error results shared by the registry and the conversion facade. */
module Wrappers {

  /** A value that may be absent (Python's `None`). */
  datatype Option<+T> = None | Some(value: T)

  /** Either a value or the exception the operation raises. */
  datatype Result<+R, +E> = Success(value: R) | Failure(error: E)
}
