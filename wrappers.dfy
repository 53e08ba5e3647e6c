/** Option and Result values used where the Python code returns None or raises. */
module Wrappers {

  datatype Option<+T> = None | Some(value: T) {
    function GetOr(default: T): T {
      match this
      case Some(v) => v
      case None => default
    }
  }

  /** `Err` carries the text that `str(e)` gives for the exception that was raised. */
  datatype Result<+T> = Ok(value: T) | Err(error: string)
}
