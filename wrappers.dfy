/** Rust's Option and Result, with the combinators the client uses. */
module Wrappers {

  datatype Option<+T> = None | Some(value: T) {

    /** Rust's `unwrap_or(default)` / `unwrap_or_default()` when `default` is the type's default. */
    function GetOr(default: T): T {
      match this
      case Some(v) => v
      case None => default
    }

    function Map<U>(f: T -> U): Option<U> {
      match this
      case Some(v) => Some(f(v))
      case None => None
    }
  }

  datatype Result<+T, +E> = Ok(value: T) | Err(error: E)
}
