/** Optional values: the `None` of a Python `dict.get` on an absent or null key. */
module Wrappers {

  datatype Option<+T> = None | Some(value: T) {

    /** Returns the value held, or `default` when there is none. */
    function GetOr(default: T): T {
      match this
      case Some(v) => v
      case None => default
    }
  }
}
