/** Option and Result, the two failure-carrying types the Rust code returns
    everywhere (`Option<T>` and `Result<T, String>`). */
module Wrappers {

  datatype Option<+T> = None | Some(value: T)
  {
    function GetOr(default: T): T {
      match this
      case Some(v) => v
      case None => default
    }
  }

  /** `Result<T, String>`: every error in the modelled code is a message. */
  datatype Result<+T> = Ok(value: T) | Err(error: string)

  /** The unit value `()` carried by `Ok(())`. */
  datatype Unit = Unit
}
