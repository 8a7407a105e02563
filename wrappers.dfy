/** An optional value: `None` stands for JavaScript's `null`/`undefined` (or NaN where a number is read). */
module Wrappers {
  datatype Option<+T> = None | Some(value: T) {
    function GetOr(default: T): T {
      match this
      case Some(v) => v
      case None => default
    }
  }
}
