/**
 * Option stands for JavaScript's `undefined` (a value that may be absent);
 * Result stands for a call that either returns or throws.
 */
module Wrappers {

  datatype Option<+T> = None | Some(value: T)

  datatype Result<+T, +E> = Success(value: T) | Failure(error: E)
}
