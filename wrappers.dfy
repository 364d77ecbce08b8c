/** Option and Result, the failure-carrying values every operation of the model returns. */
module Wrappers {

  datatype Option<+T> = None | Some(value: T) {
    function GetOr(default: T): T {
      match this
      case Some(v) => v
      case None => default
    }
  }

  /** The outcome of an operation that can throw: `Err` carries what it throws. */
  datatype Result<+T, +E> = Ok(value: T) | Err(error: E)
}
