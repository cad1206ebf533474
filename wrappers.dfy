/** Optional values and error results used by the stores and the routes. */
module Wrappers {

  /** A value that may be absent: a missing map entry, an `undefined` or `null` field. */
  datatype Option<+T> = None | Some(value: T) {
    function GetOr(default: T): T {
      match this
      case Some(v) => v
      case None => default
    }
  }

  /** The outcome of an operation that throws on failure: the thrown message is kept. */
  datatype Result<+T> = Ok(value: T) | Err(message: string)
}
