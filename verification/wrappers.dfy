/** Option and Result values, and Go's `error` as a value carrying its message. */
module Wrappers {

  datatype Option<+T> = None | Some(value: T) {
    /** The value, or `default` when there is none. */
    function GetOr(default: T): T {
      match this
      case Some(v) => v
      case None => default
    }
  }

  datatype Result<+R, +E> = Success(value: R) | Failure(error: E)

  /** A Go `error`: all the code observes of one is its message, `err.Error()`. */
  datatype Error = Error(message: string)
}
