/** Option and Result: the shapes the Rust source uses for absent values and for errors. */
module Wrappers {

  datatype Option<+T> = None | Some(value: T) {
    /** The contained value, or `default` when there is none (Rust's `unwrap_or`). */
    function GetOr(default: T): T {
      match this
      case Some(v) => v
      case None => default
    }
  }

  /** A computation that either produced a value or failed with an error. */
  datatype Result<+T, +E> = Ok(value: T) | Err(error: E)

  /** A computation that returns no value (Rust's `Result<()>`). */
  datatype Outcome<+E> = Pass | Fail(error: E)
}
