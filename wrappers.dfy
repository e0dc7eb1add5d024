/** An optional value: Python's `None` or a present value. */
module Wrappers {

  datatype Option<T> = None | Some(value: T) {

    /** The present value, or `default` for `None` (Python's `x or default` on an optional). */
    function GetOr(default: T): T {
      if Some? then value else default
    }
  }
}
