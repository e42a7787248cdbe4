/** Optional values (Java's nullable references) and success-or-error results
    (Java's thrown exceptions), shared by every module of the model. */
module Wrappers {

  /** A value that may be absent: `None` stands for a Java `null`. */
  datatype Option<+T> = None | Some(value: T) {

    /** The carried value, or `fallback` when there is none. */
    function GetOr(fallback: T): T {
      match this
      case Some(v) => v
      case None => fallback
    }
  }

  /** The outcome of an operation that may fail: `Failure` stands for an exception
      raised to the caller. */
  datatype Result<+R, +E> = Success(value: R) | Failure(error: E)
}
