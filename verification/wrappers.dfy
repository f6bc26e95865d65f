/** Optional and fallible values shared by the node modules. */
module Wrappers {

  /** An optional value: the model's stand-in for `undefined`. */
  datatype Option<+T> = None | Some(value: T)

  /** A value or the error that the source would have thrown instead. */
  datatype Result<+R, +E> = Success(value: R) | Failure(error: E)
}
