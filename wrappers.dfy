/** Optional values and results with an error, as the source's `undefined` returns and thrown errors. */
module Wrappers {

  /** A value that may be absent (a TypeScript `T | undefined`). */
  datatype Option<+T> = None | Some(value: T) {
    /** The value when present, otherwise `default` (the `??` of an optional field). */
    function GetOr(default: T): T
    {
      match this
      case Some(v) => v
      case None => default
    }
  }

  /** The outcome of an operation that can throw: the value, or the error message. */
  datatype Result<+T> = Success(value: T) | Failure(error: string)
}
