/** Optional values and success-or-error outcomes, standing in for Swift's
    `Optional`, `throws` and Combine's `Subscribers.Completion`. */
module Wrappers {

  /** Swift's `T?`. */
  datatype Option<+T> = None | Some(value: T) {
    /** The value, or `default` when there is none (Swift's `??`). */
    function GetOr(default: T): (r: T)
      ensures Some? ==> r == value
      ensures None? ==> r == default
    {
      match this
      case Some(v) => v
      case None => default
    }
  }

  /** The outcome of a request or of a throwing call. */
  datatype Result<+R, +E> = Success(value: R) | Failure(error: E)

  /** The outcome of a throwing call that returns nothing. */
  datatype Outcome<+E> = Pass | Fail(error: E)
}
