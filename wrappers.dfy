/** Optional values and error-carrying results, used for Python's `None`
    returns and for functions that raise `ValueError`. */
module Wrappers {

  /** A value that may be absent (Python's `Optional[...]`). */
  datatype Option<+T> = None | Some(value: T)

  /** Either a value or the error that the source raises instead of returning. */
  datatype Result<+T, +E> = Success(value: T) | Failure(error: E)

  /** The outcome of a check that returns `True` or raises. */
  datatype Outcome<+E> = Pass | Fail(error: E)
}
