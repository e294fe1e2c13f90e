/** Optional values and results with an error message, used wherever the
    source returns `null`/`undefined` or throws. */
module Wrappers {

  datatype Option<+T> = None | Some(value: T) {
    function GetOr(default: T): T {
      match this
      case Some(v) => v
      case None => default
    }
  }

  /** `Err` carries the message of the exception the source would throw. */
  datatype Result<+T> = Ok(value: T) | Err(error: string)
}
