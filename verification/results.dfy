/** Failure-carrying wrappers shared by every module of the model. */
module Results {

  /** A value that may be absent: a Python `None`, a missing dictionary key
      or an unset environment variable. */
  datatype Option<+T> = None | Some(value: T) {

    /** The wrapped value, or `default` when absent (Python's `d.get(k, default)`). */
    function GetOr(default: T): T {
      match this
      case Some(v) => v
      case None => default
    }
  }

  /** The outcome of a step that either produces a value or raises an exception
      whose `str()` is `error`. */
  datatype Result<+T, +E> = Success(value: T) | Failure(error: E)
}
