/** The optional value used wherever the storefront reads a property through `?.`
    or looks up an element that may be missing (JavaScript `undefined`). */
module Wrappers {

  datatype Option<+T> = None | Some(value: T) {

    /** The value, or the given default when there is none (JavaScript `x ?? d`). */
    function GetOr(default: T): T {
      match this
      case Some(v) => v
      case None => default
    }
  }
}
