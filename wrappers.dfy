/** Optional values, Python's `None` versus a present value, and the
    outcome of a computation that may raise. */
module Wrappers {

  datatype Option<+T> = None | Some(value: T) {

    /** The value, or `default` when absent: Python's `x if x is not None else default`. */
    function GetOr(default: T): T
    {
      match this
      case Some(v) => v
      case None => default
    }
  }

  /** A value, or the text of the exception raised instead. */
  datatype Result<+T> = Returned(value: T) | Threw(error: string)
}
