/** Optional values: JavaScript's `null`/`undefined` and Python's `None`. */
module Wrappers {

  datatype Option<+T> = None | Some(value: T) {

    /** The value, or `default` when absent. */
    function GetOr(default: T): T {
      match this
      case Some(v) => v
      case None => default
    }
  }

  /**
   * The outcome of a Python call that may raise: either its value or the
   * message of the exception it raised.
   */
  datatype Outcome<+T> = Ok(value: T) | Raise(message: string)
}
