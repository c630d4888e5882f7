/** The failure-carrying and choice datatypes the modelled Rust and TypeScript code uses:
    Rust's `Option`, `Result` and the `either` crate's `Either`. */
module Wrappers {

  datatype Option<+T> = None | Some(value: T)

  datatype Result<+T, +E> = Ok(value: T) | Err(error: E)

  datatype Either<+L, +R> = Left(left: L) | Right(right: R)

  /** The `()` value of Rust's unit type. */
  datatype Unit = Unit
}
