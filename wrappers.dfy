/** Optional values and results with an error message, used for JavaScript's
    `undefined`/`null` and for thrown exceptions. */
module Wrappers {

  /** A value that may be missing (JavaScript `undefined` or `null`). */
  datatype Option<+T> = None | Some(value: T)

  /** The outcome of a step that may throw: its value, or the thrown error's message. */
  datatype Result<+R> = Success(value: R) | Failure(message: string)
}
