/** Failure-carrying value types shared by the model: Rust's `Option` and `Result`. */
module Wrappers {

  /** `Option<T>`: a value that may be absent. */
  datatype Option<+T> = None | Some(value: T)

  /** `Result<T, E>`: either a success value or an error value. */
  datatype Result<+T, +E> = Ok(value: T) | Err(error: E)
}
