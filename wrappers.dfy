/** Result and Option datatypes used across the model. */
module Wrappers {

  datatype Option<+T> = None | Some(value: T)

  /** Either a value or the exception the Java code would throw instead. */
  datatype Result<+T, +E> = Success(value: T) | Failure(error: E)
}
