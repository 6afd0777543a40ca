/** Optional values and validation outcomes shared by the handlers. */
module Wrappers {

  /** A value that may be absent: a JavaScript `undefined` or `null`. */
  datatype Option<+T> = None | Some(value: T)

  /** The outcome of a check that either yields a value or an error message. */
  datatype Result<+R, +E> = Success(value: R) | Failure(error: E)
}
