/** Optional values. Every field of a cloud-SDK record is a Go pointer that may be
    nil; here such a field is an `Option`, and `GetOr(zero)` plays the part of the
    go-autorest `to.String` / `to.Int64` / `to.StringSlice` helpers (nil becomes
    the zero value of the type). */
module Wrappers {

  datatype Option<+T> = None | Some(value: T) {

    /** The wrapped value, or `default` when absent. */
    function GetOr(default: T): T
    {
      match this
      case Some(v) => v
      case None => default
    }
  }
}
