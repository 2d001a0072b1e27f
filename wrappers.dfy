/** Option, Result and Outcome: the model's stand-ins for Java's null and
    for exceptions thrown out of an operation. */
module Wrappers {

  /** A value that may be absent (a Java reference that may be null). */
  datatype Option<+T> = None | Some(value: T)

  /** A value, or the exception that was thrown instead of returning one. */
  datatype Result<+R, +E> = Success(value: R) | Failure(error: E)

  /** A void operation that completed, or the exception it threw. */
  datatype Outcome<+E> = Pass | Fail(error: E)
}
