/** Optional values and success-or-error results.
    `Option` stands for a TypeScript value that may be `null` or `undefined`;
    `Result` stands for a call that either returns a value or throws an `Error`
    whose message is the `Err` payload. */
module Wrappers {

  datatype Option<+T> = None | Some(value: T) {
    function GetOr(default: T): T {
      match this
      case Some(v) => v
      case None => default
    }
  }

  datatype Result<+T, +E> = Ok(value: T) | Err(error: E)
}
