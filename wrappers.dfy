/** Option and Result datatypes used for the application's fallible values:
    a missing value, an exception raised by an awaited external call. */
module Wrappers {

  datatype Option<+T> = None | Some(value: T) {
    function GetOr(default: T): T {
      match this
      case Some(v) => v
      case None => default
    }
  }

  /** The outcome of an awaited call that either resolves with a value or
      rejects with an error whose `message` is carried as a string. */
  datatype Result<+R> = Ok(value: R) | Err(message: string)
}
