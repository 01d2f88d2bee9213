/** Option and Result for values that may be missing and for operations that may throw. */
module Wrappers {

  datatype Option<+T> = None | Some(value: T) {
    function GetOr(default: T): T {
      match this
      case Some(v) => v
      case None => default
    }
  }

  /** An operation that either returns a value or throws an Error carrying `message`. */
  datatype Result<+T> = Ok(value: T) | Err(message: string)
}
