/** Optional values: a browser-storage key that may be missing, or a page
    state field that React holds as `null` until an effect sets it. */
module Wrappers {

  datatype Option<+T> = None | Some(value: T) {

    /** The value, or `default` when there is none. */
    function GetOr(default: T): T {
      match this
      case Some(v) => v
      case None => default
    }
  }
}
