/** Optional values and results with an error, shared by the other modules. */
module Wrappers {

  /** A value that may be absent; stands for Python's `None`-able arguments. */
  datatype Option<+T> = None | Some(value: T)

  /** The outcome of an operation that either yields a value or stops with an error. */
  datatype Result<+R, +E> = Success(value: R) | Failure(error: E)
}
