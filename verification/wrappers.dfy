/** Optional values, in place of JavaScript's `null`, `undefined` and the
    NaN of a failed parse. */
module Wrappers {

  datatype Option<+T> = None | Some(value: T) {
    function GetOr(default: T): T {
      match this
      case Some(v) => v
      case None => default
    }
  }
}
