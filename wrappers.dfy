/** Option and Result, standing in for Java's null and for thrown exceptions. */
module Wrappers {

  /** `None` plays the part of a Java `null`. */
  datatype Option<+T> = None | Some(value: T)

  /** `Failure` plays the part of an exception that aborts the whole call. */
  datatype Result<+R, +E> = Success(value: R) | Failure(error: E)
}
