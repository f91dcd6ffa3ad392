/** Option and Result, used for Java's null references and thrown exceptions. */
module Wrappers {

  /** `None` stands for a Java `null` argument. */
  datatype Option<+T> = None | Some(value: T)

  /** The value a call returns, or the exception it throws instead. */
  datatype Result<+R, +E> = Success(value: R) | Failure(error: E)
}
