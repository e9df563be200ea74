/** Option and Result values for lookups that may miss and for operations that may raise. */
module Wrappers {

  datatype Option<+T> = None | Some(value: T) {
    /** The wrapped value, or `default` when there is none. */
    function GetOr(default: T): T {
      match this
      case Some(v) => v
      case None => default
    }
  }

  /** `Failure` carries the text of a raised exception, as `str(e)` renders it. */
  datatype Result<+T, +E> = Success(value: T) | Failure(error: E)
}
