/** An optional value, shared by the other modules. */
module Wrappers {

  /** A value that may be absent: a JavaScript `undefined` argument or a missed table lookup. */
  datatype Option<+T> = None | Some(value: T) {

    /** The wrapped value, or `default` when there is none (JavaScript's `??` and default parameters). */
    function GetOr(default: T): T {
      match this
      case Some(v) => v
      case None => default
    }
  }
}
