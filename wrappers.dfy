/** The two failure-carrying wrappers the model uses in place of Java's null and exceptions. */
module Wrappers {

  /** A value that may be absent: Java's null, or an empty java.util.Optional. */
  datatype Option<+T> = None | Some(value: T)

  /** Either a value or the Throwable that aborted the computation. */
  datatype Result<+R, +E> = Success(value: R) | Failure(error: E)
}
