/** Optional values and success-or-error results, used for the places where the
    scrapers and the API route either produce a value or throw. */
module Wrappers {

  datatype Option<+T> = None | Some(value: T)

  /** `Failure` carries the message of the `Error` the TypeScript code throws. */
  datatype Result<+R, +E> = Success(value: R) | Failure(error: E)
}
