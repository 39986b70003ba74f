/** Optional values and success/failure results, used for Kotlin's nullable types and thrown exceptions. */
module Wrappers {

  /** A Kotlin `T?`: `None` stands for `null`. */
  datatype Option<+T> = None | Some(value: T)

  /** The outcome of a call that either returns a value or throws. */
  datatype Result<+T, +E> = Success(value: T) | Failure(error: E)
}
