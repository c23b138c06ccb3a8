/** Optional values and success/failure results, standing in for `undefined`
    and for thrown `Error`s of the application. */
module Wrappers {

  datatype Option<+T> = None | Some(value: T)

  /** A computation that either yields a value or fails with an error message. */
  datatype Result<+T> = Success(value: T) | Failure(message: string)
}
