/** Option and Result values used where the Java code has a null or throws. */
module Wrappers {

  /** A value that may be absent (a Java reference that may be null). */
  datatype Option<+T> = None | Some(value: T)

  /** Either a value or the error that the Java code raises instead. */
  datatype Result<+R, +E> = Success(value: R) | Failure(error: E)
}
