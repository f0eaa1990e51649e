/** Failure-carrying results, used where the JavaScript code throws, returns
    `undefined`, or catches an exception and falls back to another value. */
module Wrappers {

  datatype Option<+T> = None | Some(value: T) {
    function GetOr(default: T): T {
      match this
      case Some(v) => v
      case None => default
    }
  }

  datatype Result<+R, +E> = Ok(value: R) | Err(error: E)
}
