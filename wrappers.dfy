/** Option and Result values shared by every module of the model. */
module Wrappers {

  /** A value that may be absent: a Python `None`, a missing dictionary key. */
  datatype Option<+T> = None | Some(value: T) {
    function GetOr(default: T): T {
      match this
      case Some(v) => v
      case None => default
    }
  }

  /** The outcome of a call that either returns a value or raises an exception,
      the exception being carried as its message. */
  datatype Result<+T> = Ok(value: T) | Err(error: string)
}
