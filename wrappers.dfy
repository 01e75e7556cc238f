/** Optional values and the outcome of an operation that may panic. */
module Wrappers {

  /** Rust's `Option<T>`. */
  datatype Option<T> = None | Some(value: T) {

    /** Rust's `unwrap_or`: the held value, or `default` when there is none. */
    function UnwrapOr(default: T): T {
      match this
      case Some(v) => v
      case None => default
    }
  }

  /** A value, or the message of the panic (`panic!`, `expect`, a failed index) that ends the process. */
  datatype Result<T> = Ok(value: T) | Panic(message: string)
}
