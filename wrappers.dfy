/** Failure-carrying values used throughout the model. A JavaScript function
    that may throw is modelled as one returning a `Result`; a value that may be
    `undefined` or `null` is an `Option`. */
module Wrappers {

  datatype Option<+T> = None | Some(value: T) {
    function GetOr(default: T): T {
      match this
      case Some(v) => v
      case None => default
    }
  }

  datatype Result<+R, +E> = Success(value: R) | Failure(error: E)
}
