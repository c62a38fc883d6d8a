/** Optional values and success-or-error results, for the collaborators whose answers are passed in. */
module Wrappers {

  /** A value that may be absent: Python's `None` versus a value. */
  datatype Option<+T> = None | Some(value: T)

  /** The outcome of a call that either returns a value or raises an error. */
  datatype Result<+T, +E> = Success(value: T) | Failure(error: E)
}
