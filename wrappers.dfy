/** Option and Result, the failure-carrying values the rest of the model returns
    where the Java code returns null or throws. */
module Wrappers {

  datatype Option<+T> = None | Some(value: T)

  datatype Result<+R, +E> = Success(value: R) | Failure(error: E)

  /** The value of a Java `void` method that returned normally. */
  datatype Unit = Unit
}
