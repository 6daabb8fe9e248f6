/**
 * Optional values: `None` is a JavaScript field that is absent. Where the code
 * treats `null` exactly as `undefined` (both are falsy, and `parseFloat` reads
 * both as NaN), `None` stands for either.
 */
module Wrappers {

  datatype Option<+T> = None | Some(value: T) {

    /** The wrapped value, or `default` when there is none. */
    function GetOr(default: T): T {
      match this
      case Some(v) => v
      case None => default
    }
  }
}
