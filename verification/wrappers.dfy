/** Optional values: a value read from the page that may be missing, or a
    number input that does not parse. */
module Wrappers {

  datatype Option<+T> = None | Some(value: T) {

    /** The value carried, or `default` when there is none (the script's `x || default`). */
    function GetOr(default: T): (r: T)
      ensures Some? ==> r == value
      ensures None? ==> r == default
    {
      match this
      case Some(v) => v
      case None => default
    }
  }
}
