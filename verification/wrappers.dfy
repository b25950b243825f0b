/** Failure-carrying wrappers shared by the settings model. */
module Wrappers {

  /** An optional value: Python's `None` or a present value. */
  datatype Option<+T> = None | Some(value: T) {

    /** The wrapped value, or `default` when there is none. */
    function GetOr(default: T): T {
      match this
      case Some(v) => v
      case None => default
    }
  }

  /** Either the result of an operation or the error it raised. */
  datatype Result<+T, +E> = Ok(value: T) | Err(error: E)
}
