/** Option and Result, the two shapes the model uses for values a JavaScript
    program leaves `undefined` and for operations that either yield a value
    or throw. */
module Wrappers {

  datatype Option<+T> = None | Some(value: T) {
    function GetOr(default: T): T {
      match this
      case Some(v) => v
      case None => default
    }
  }

  datatype Result<+R, +E> = Success(value: R) | Failure(error: E)
}
