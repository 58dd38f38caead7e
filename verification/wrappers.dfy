/** Kotlin's nullable values, and how they print inside a string template. */
module Wrappers {

  /** A Kotlin `T?`: `None` stands for `null`. */
  datatype Option<+T> = None | Some(value: T) {

    /** Kotlin's elvis operator `x ?: default`. */
    function GetOr(default: T): T {
      match this
      case Some(v) => v
      case None => default
    }
  }

  /** A nullable string inside a Kotlin string template: `null` prints as "null". */
  function Interpolate(o: Option<string>): string {
    match o
    case Some(s) => s
    case None => "null"
  }
}
