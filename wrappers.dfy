/** Option type used for values that may be absent (a Python `None`). */
module Wrappers {
  datatype Option<+T> = None | Some(value: T) {
    /** The value, or `default` when absent (Python's `x or default` on a nullable cell). */
    function GetOr(default: T): T {
      match this
      case Some(v) => v
      case None => default
    }
  }

  /** The rows of a query: none when it failed. */
  function RowsOf<R>(res: Option<seq<R>>): seq<R> {
    if res.Some? then res.value else []
  }
}
