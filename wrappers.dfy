/** Optional values and pass/fail outcomes used throughout the model. */
module Wrappers {

  /** A value that may be absent: an optional property of a JavaScript object. */
  datatype Option<+T> = None | Some(value: T) {

    /** The value when present, otherwise `default`. */
    function GetOr(default: T): T
    {
      match this
      case Some(v) => v
      case None => default
    }
  }

  /** The result of an operation that either completes or throws an error message. */
  datatype Outcome<+E> = Pass | Fail(error: E)
}
