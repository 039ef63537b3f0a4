/** Optional and fallible values, standing in for TypeScript's `T | null` and for
    operations that throw. */
module Wrappers {

  /** `None` plays the role of JavaScript's `null` or `undefined`. */
  datatype Option<+T> = None | Some(value: T) {

    /** The wrapped value, or `default` when there is none (`x ?? default`). */
    function GetOr(default: T): T {
      match this
      case Some(v) => v
      case None => default
    }
  }

  /** The outcome of an operation that either returns a value or throws an error
      carrying a message. */
  datatype Result<+R, +E> = Success(value: R) | Failure(error: E)
}
