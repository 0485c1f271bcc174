/** Option and Result, the two failure-carrying shapes the model uses:
    an absent JavaScript value (`undefined`/`null`) is `None`, and an error
    that a method throws before doing any work is `Failure(message)`. */
module Wrappers {

  datatype Option<+T> = None | Some(value: T) {
    function GetOr(default: T): T {
      match this
      case Some(v) => v
      case None => default
    }
  }

  datatype Result<+R, +E> = Success(value: R) | Failure(error: E)
}
