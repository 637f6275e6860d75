/** The optional value used for every proto2 field that may be absent and
    for every Python `None` / JavaScript `null` result. */
module Wrappers {

  datatype Option<+T> = None | Some(value: T) {

    /** The value when present, otherwise `default` (proto2's read of an unset field). */
    function GetOr(default: T): T {
      match this
      case Some(v) => v
      case None => default
    }
  }
}
