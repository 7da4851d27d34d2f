/** The conventional optional value; `None` stands for PHP's NULL or an unset key. */
module Wrappers {

  datatype Option<+T> = None | Some(value: T) {

    /** Returns the value, or `default` when there is none. */
    function GetOr(default: T): T {
      match this
      case Some(v) => v
      case None => default
    }
  }
}
