/** Optional values (Ruby's `nil`) and results of operations that can raise. */
module Wrappers {

  /** A value that may be absent; `None` stands for Ruby's `nil`. */
  datatype Option<+T> = None | Some(value: T)

  /** The outcome of an operation that either returns a value or raises an error. */
  datatype Result<+R, +E> = Success(value: R) | Failure(error: E)
}
