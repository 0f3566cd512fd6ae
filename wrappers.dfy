/** Optional and fallible values, as Swift's `Optional` and `throws` produce them. */
module Wrappers {

  datatype Option<+T> = None | Some(value: T) {

    /** Swift's `optional.map { ... }`. */
    function Map<U>(f: T -> U): Option<U> {
      match this
      case None => None
      case Some(v) => Some(f(v))
    }
  }

  datatype Result<+R, +E> = Success(value: R) | Failure(error: E)
}
