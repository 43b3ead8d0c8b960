/** Optional values: a JSON field that is absent, or holds null, is None. */
module Wrappers {

  datatype Option<+T> = None | Some(value: T) {

    /** The `??` operator of JavaScript: the value when present, else the default. */
    function GetOr(default: T): T {
      match this
      case Some(v) => v
      case None => default
    }
  }
}
