/** Optional values: JavaScript's `undefined` / `null` alongside a present value. */
module Wrappers {

  datatype Option<+T> = None | Some(value: T) {

    /** The present value, or `default` when absent (the `??` operator). */
    function GetOr(default: T): T {
      match this
      case Some(v) => v
      case None => default
    }
  }
}
