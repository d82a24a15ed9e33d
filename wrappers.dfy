/** Failure-compatible wrappers shared by the modules of this project. */
module Wrappers {

  /** A value that may be absent: the success-or-failure outcome of a gateway
      call, or a Python value that may be `None`. */
  datatype Option<+T> = None | Some(value: T) {

    /** The wrapped value, or `default` when there is none. */
    function GetOr(default: T): T
    {
      match this
      case Some(v) => v
      case None => default
    }
  }

  /** A check that either passes or fails with an error value (a raised exception). */
  datatype Outcome<+E> = Pass | Fail(error: E)
}
