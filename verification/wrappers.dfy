/** Failure-compatible wrappers shared by the whole model: Rust's `Option`
    and `Result` as Dafny datatypes. */
module Wrappers {

  /** `Option<T>`: `Some(value)` or `None`. */
  datatype Option<+T> = None | Some(value: T)

  /** `Result<T, E>`: `Ok(value)` or `Err(error)`; rule handlers return
      `Result<TokenType, String>`. */
  datatype Result<+T, +E> = Ok(value: T) | Err(error: E)
}
