/** Option and Result values used in place of Java's null and exceptions. */
module Wrappers {

  /** `None` stands for a Java `null` reference. */
  datatype Option<+T> = None | Some(value: T)

  /** `Failure` stands for an exception thrown by a query. */
  datatype Result<+R, +E> = Success(value: R) | Failure(error: E)
}
