/** Option, Result and Outcome: how the model states a Java null or a thrown exception. */
module Wrappers {

  /** A value that may be absent (Java's null or an empty Optional). */
  datatype Option<+T> = None | Some(value: T)

  /** A computed value or the exception that the source throws instead. */
  datatype Result<+R, +E> = Success(value: R) | Failure(error: E)

  /** A void operation that completed or threw. */
  datatype Outcome<+E> = Pass | Fail(error: E)
}
