/** Wrappers used throughout the model: `Option` for Python values that may be
    absent (a missing dictionary key or a JSON null), `Result` for calls that either produce a value
    or raise. */
module Wrappers {

  datatype Option<+T> = None | Some(value: T) {

    /** The wrapped value, or `default` when absent (Python's `d.get(key, default)`). */
    function GetOr(default: T): T {
      match this
      case Some(v) => v
      case None => default
    }
  }

  datatype Result<+R, +E> = Success(value: R) | Failure(error: E)
}
