/** The absent-or-present value that stands for a nullable column or a nullable piece of page state. */
module Wrappers {

  datatype Option<+T> = None | Some(value: T) {

    /** The value, or `default` when absent. This is JavaScript's `x || default` whenever the only
        falsy present value is `default` itself (`'' || ''`, `0 || 0`). */
    function GetOr(default: T): T {
      match this
      case Some(v) => v
      case None => default
    }
  }
}
