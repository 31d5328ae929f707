/** Option and Result, used for the absent values and the failures of the script. */
module Wrappers {

  datatype Option<+T> = None | Some(value: T) {
    /** The value if present, else the given default (Python's `dict.get(key, default)` shape). */
    function GetOr(default: T): T {
      match this
      case Some(v) => v
      case None => default
    }
  }

  datatype Result<+R, +E> = Ok(value: R) | Err(error: E)
}
