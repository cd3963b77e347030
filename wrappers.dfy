/** An optional value: `None` stands for JavaScript's `undefined` (an absent
    field, a missing message) or for a failed conversion. */
module Wrappers {

  datatype Option<+T> = None | Some(value: T) {

    /** The held value, or `default` when there is none. */
    function GetOr(default: T): T {
      match this
      case Some(v) => v
      case None => default
    }
  }
}
