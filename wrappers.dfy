/** The optional-value and result datatypes shared by every module of the model. */
module Wrappers {

  /** A value that may be absent: a missing key of a Python dict, or `None`. */
  datatype Option<+T> = None | Some(value: T) {
    function GetOr(default: T): T {
      match this
      case Some(v) => v
      case None => default
    }
  }

  /** The outcome of an operation that may raise: `Ok` carries the return value, `Err` the exception. */
  datatype Result<+R, +E> = Ok(value: R) | Err(error: E)
}
