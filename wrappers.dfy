/** Optional values and error results shared by the other modules. */
module Wrappers {

  /** Python's "a value or None". */
  datatype Option<+T> = None | Some(value: T)

  /** A value, or the exception the Python code would raise instead. */
  datatype Result<+T, +E> = Success(value: T) | Failure(error: E)

  /** A method that either completes or raises the given exception. */
  datatype Outcome<+E> = Ok | Fail(error: E)
}
