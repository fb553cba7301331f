/** Optional values and success-or-error results shared by both handlers. */
module Wrappers {

  /** A value that may be absent: an omitted JSON field, a missing document. */
  datatype Option<+T> = None | Some(value: T) {
    function GetOr(default: T): T {
      match this
      case Some(v) => v
      case None => default
    }
  }

  /** The outcome of a handler: a value, or the error it reports. */
  datatype Result<+R, +E> = Success(value: R) | Failure(error: E)
}
