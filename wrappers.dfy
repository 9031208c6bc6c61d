/** Option and Result, the two failure-carrying shapes the service uses. */
module Wrappers {

  datatype Option<+T> = None | Some(value: T) {
    /** Rust's `unwrap_or`: the carried value, or `default` when there is none. */
    function GetOr(default: T): T {
      match this
      case Some(v) => v
      case None => default
    }
  }

  /** A Rust `Result<T, String>`: every error of the service is a message string. */
  datatype Result<+T> = Ok(value: T) | Err(msg: string)
}
