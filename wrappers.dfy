/** Optional values: JavaScript's `undefined`/`null` where the source tests for them. */
module Wrappers {

  datatype Option<+T> = None | Some(value: T) {

    /** `x ?? d`, and `x || d` where the value itself is never falsy. */
    function GetOr(default: T): T {
      match this
      case Some(v) => v
      case None => default
    }
  }
}
