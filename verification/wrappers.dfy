/** Optional values and results, standing in for `T | null` and for
    functions that either return or throw. */
module Wrappers {

  /** `None` plays the role of JavaScript's `null` / `undefined`. */
  datatype Option<+T> = None | Some(value: T)

  /** `Failure` plays the role of a thrown (and possibly caught) error. */
  datatype Result<+R, +E> = Success(value: R) | Failure(error: E)
}
