/** Option and Result, the failure-carrying values used throughout the model. */
module Wrappers {

  datatype Option<+T> = None | Some(value: T)

  /** A Rust `io::Result`: the error is carried as the text `to_string()` would give. */
  datatype Result<+T> = Ok(value: T) | Err(error: string) {
    /** `unwrap_or`: the value, or the default when this is an error. */
    function UnwrapOr(default: T): T {
      match this
      case Ok(v) => v
      case Err(_) => default
    }
  }
}
