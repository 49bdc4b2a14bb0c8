/** Small shared datatypes. */
module Basics {

  /** A value that may be absent: PHP's `false` or `null` results become None. */
  datatype Option<+T> = None | Some(value: T) {

    /** The value, or `default` when absent. */
    function GetOr(default: T): T
    {
      match this
      case Some(v) => v
      case None => default
    }
  }
}
