/** Optional values, standing for Go's nil-able references and error values. */
module Wrappers {

  /** `None` is Go's nil; `Some(v)` a present value. */
  datatype Option<+T> = None | Some(value: T) {

    /** The wrapped value, or `default` when there is none. */
    function GetOr(default: T): T {
      match this
      case Some(v) => v
      case None => default
    }
  }
}
