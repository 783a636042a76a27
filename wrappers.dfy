/** Optional values and results: the model's stand-ins for `undefined`/`null`
    and for thrown errors. */
module Wrappers {

  /** An optional value: `None` models a field that is `undefined` or `null`. */
  datatype Option<+T> = None | Some(value: T) {
    function GetOr(default: T): T {
      match this
      case Some(v) => v
      case None => default
    }
  }

  /** A computation that either succeeds or reports an error value. */
  datatype Result<+R, +E> = Ok(value: R) | Err(error: E)
}
