/** The optional value used wherever the Ruby code has a value or nil. */
module Wrappers {

  datatype Option<+T> = None | Some(value: T) {

    /** `x || default` for a value that is never `false`. */
    function GetOr(default: T): T
    {
      match this
      case Some(v) => v
      case None => default
    }
  }
}
