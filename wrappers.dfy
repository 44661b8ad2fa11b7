/** The Option and Result datatypes shared by the purse model. */
module Wrappers {

  /** A value that may be absent: JavaScript's `undefined` from `find`, or `-1` from `findIndex`. */
  datatype Option<+T> = None | Some(value: T)

  /** The outcome of an operation that either yields a value or throws. */
  datatype Result<+R, +E> = Success(value: R) | Failure(error: E)
}
