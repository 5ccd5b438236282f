/** Option and Result, the stand-ins for a nullable Java reference and for an outcome that may throw. */
module Wrappers {

  /** A Java reference that may be null: `None` is null. */
  datatype Option<+T> = None | Some(value: T)

  /** The outcome of a call that either returns a value or throws (the error names what is thrown). */
  datatype Result<+T, +E> = Success(value: T) | Failure(error: E)
}
