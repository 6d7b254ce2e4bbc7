/** The optional value used wherever the dashboard code works with `null`,
    `undefined` or a missing row. */
module Wrappers {

  datatype Option<+T> = None | Some(value: T) {

    /** The wrapped value, or `default` when there is none (the `x ?? d` idiom). */
    function GetOr(default: T): T {
      match this
      case Some(v) => v
      case None => default
    }
  }
}
