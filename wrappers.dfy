/** Optional values and the success-or-error outcome of a tool call. */
module Wrappers {

  /** `None` stands for a TypeScript value that is `null` or `undefined`. */
  datatype Option<+T> = None | Some(value: T) {

    /** The nullish-coalescing operator `this ?? default`. */
    function GetOr(default: T): T {
      match this
      case Some(v) => v
      case None => default
    }
  }

  /** A tool either returns a reply or throws an error. */
  datatype Result<+R, +E> = Success(value: R) | Failure(error: E)
}
