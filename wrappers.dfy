/** An optional value: `None` stands for JavaScript's `undefined` (or `null`) wherever the source
    reads a property, argument or form field that may be absent. */
module Wrappers {

  datatype Option<+T> = None | Some(value: T) {

    /** The value, or `default` when there is none. */
    function GetOr(default: T): T {
      match this
      case Some(v) => v
      case None => default
    }
  }
}
