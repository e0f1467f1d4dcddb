/** Failure-carrying datatypes used by the data-client model. */
module Wrappers {

  /** An optional value: Rust's `Option<T>`. */
  datatype Option<+T> = None | Some(value: T)

  /** A value or an error: the outcome of a backend call. */
  datatype Result<+R, +E> = Success(value: R) | Failure(error: E)
}
