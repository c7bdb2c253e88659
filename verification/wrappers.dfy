/** Optional values and success/failure outcomes, standing in for Swift's
    `Optional` and for a publisher that settles with a value or an error. */
module Wrappers {

  /** Swift's `T?`: a value that may be absent (`nil`). */
  datatype Option<+T> = None | Some(value: T)

  /** The outcome of an asynchronous service call: a payload or a typed failure. */
  datatype Result<+R, +E> = Success(value: R) | Failure(error: E)
}
