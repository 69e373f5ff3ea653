/** Option and Result, the two wrappers the model uses for Rust's `Option` and `Result<T, ()>`. */
module Wrappers {

  datatype Option<+T> = None | Some(value: T) {
    /** `unwrap_or` */
    function GetOr(default: T): T {
      match this
      case Some(v) => v
      case None => default
    }
  }

  /** `Result<T, ()>`: the error carries no information. */
  datatype Result<+T> = Ok(value: T) | Err
}
