/** Optional values and results, for JavaScript's `undefined` and for thrown errors. */
module Wrappers {

  /** `None` stands for a property that is `undefined` (absent). */
  datatype Option<+T> = None | Some(value: T)

  /** `Failure` stands for an exception thrown out of an async method. */
  datatype Result<+T, +E> = Success(value: T) | Failure(error: E)
}
