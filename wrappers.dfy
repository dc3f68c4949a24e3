/** Optional values and results: JavaScript's `undefined`/`null` and the app's error path. */
module Wrappers {
  datatype Option<+T> = None | Some(value: T)

  datatype Result<+T, +E> = Success(value: T) | Failure(error: E)
}
