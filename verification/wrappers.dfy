/** Option and Result values used for the source's `None` returns and raised errors. */
module Wrappers {

  datatype Option<+T> = None | Some(value: T) {
    /** Returns the wrapped value, or `default` for None (Python's `d.get(k, default)`). */
    function GetOr(default: T): T {
      match this
      case Some(v) => v
      case None => default
    }
  }

  /** A value, or the message of an error: the `ValueError(msg)` the code raises itself, or the
      exception a vendor call raised. Only the message is kept, not the exception's class. */
  datatype Result<+T> = Success(value: T) | Failure(error: string)
}
