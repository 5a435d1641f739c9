/** Failure-carrying result types shared by the model. */
module Wrappers {

  datatype Option<+T> = None | Some(value: T)

  /** Rust's `Result<T, E>`: `Ok` is `Success`, `Err` is `Failure`. */
  datatype Result<+T, +E> = Success(value: T) | Failure(error: E)
}
