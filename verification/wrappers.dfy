/** Optional values and results with an error, used for the JavaScript
    `undefined`/value distinction and for library calls that fail. */
module Wrappers {

  datatype Option<+T> = None | Some(value: T)

  datatype Result<+R, +E> = Success(value: R) | Failure(error: E)
}
