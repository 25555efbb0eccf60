/** Result wrappers shared by every module of the model. */
module Wrappers {

  /** A value that may be absent: an optional JSON field, or `undefined` from a lookup. */
  datatype Option<+T> = None | Some(value: T)

  /** The outcome of an operation that can throw: `Failure` carries the error message. */
  datatype Result<+R> = Success(value: R) | Failure(error: string)
}
