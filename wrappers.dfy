/** Option, Result and the outcome of a call that may panic. */
module Wrappers {

  datatype Option<+T> = None | Some(value: T) {
    function GetOr(default: T): T {
      match this
      case Some(v) => v
      case None => default
    }
  }

  /** Rust's `Result`: a value the caller must inspect. */
  datatype Result<+T, +E> = Ok(value: T) | Err(error: E)

  /** A call that either returns or panics (`panic!`, `unwrap`, `expect`)
      with the given message; a panic ends the program. */
  datatype Outcome<+T> = Returned(value: T) | Panicked(message: string)
}
