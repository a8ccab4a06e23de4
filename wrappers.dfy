/** Option and Result, the two failure-carrying shapes the model uses for Java's null and exceptions. */
module Wrappers {

  /** `None` stands for a Java `null` reference. */
  datatype Option<+T> = None | Some(value: T)

  /** `Failure` stands for an exception thrown where the source would return a value. */
  datatype Result<+T, +E> = Success(value: T) | Failure(error: E)
}
