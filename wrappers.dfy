/** The optional value used wherever the SDK reads something that may be absent (a null reference). */
module Wrappers {
  datatype Option<+T> = None | Some(value: T) {
    /** The value if present, otherwise `default`. */
    function GetOr(default: T): T {
      match this
      case Some(v) => v
      case None => default
    }
  }
}
