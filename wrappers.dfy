/** Option and Result, the two failure-carrying shapes used throughout the model.
    `None` stands for a Go nil pointer, slice or map; `Failure` for a non-nil `error`. */
module Wrappers {

  datatype Option<+T> = None | Some(value: T) {
    function GetOr(default: T): T {
      match this
      case Some(v) => v
      case None => default
    }
  }

  datatype Result<+R, +E> = Success(value: R) | Failure(error: E)
}
