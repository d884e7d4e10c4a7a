/** Optional values and results of the browser's parsers. */
module Wrappers {

  /** A value that may be absent: a missing query parameter, or a parse that gave NaN. */
  datatype Option<+T> = None | Some(value: T)

  /** A computation that either succeeds or throws with an error message. */
  datatype Result<+R> = Success(value: R) | Failure(message: string)
}
