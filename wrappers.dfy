/** Option, the one failure-compatible wrapper the model needs: JavaScript's `undefined`. */
module Wrappers {

  datatype Option<+T> = None | Some(value: T) {

    /** The `x || d` idiom of JavaScript for a value that may be `undefined`. */
    function GetOr(default: T): (r: T)
      ensures None? ==> r == default
      ensures Some? ==> r == value
    {
      match this
      case Some(v) => v
      case None => default
    }
  }
}
