/** Ruby's `nil`: every slot of a configuration struct is either unset or holds a value. */
module Wrappers {

  datatype Option<+T> = None | Some(value: T) {

    /** Ruby's `x || default` on a slot that is never `false`. */
    function GetOr(default: T): T
    {
      match this
      case Some(v) => v
      case None => default
    }
  }
}
