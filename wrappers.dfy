/** Small failure-carrying datatypes used by the option builder. */
module Wrappers {

  /** An optional value: the model of a Java reference that may still be null. */
  datatype Option<+T> = None | Some(value: T)

  /** The outcome of an operation that either yields a value or fails with an error. */
  datatype Result<+R, +E> = Success(value: R) | Failure(error: E)
}
