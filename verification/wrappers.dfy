/** Optional values and the results of external calls, shared by the client and server models. */
module Wrappers {

  /** A value that may be absent (JavaScript `undefined`). */
  datatype Option<+T> = None | Some(value: T)

  /** The result of an external call: a value, or the message of the error it threw. */
  datatype Result<+R> = Success(value: R) | Failure(message: string)
}
