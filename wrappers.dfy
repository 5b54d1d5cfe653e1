/** Option and Result, the stock "maybe a value" datatypes used across the model. */
module Wrappers {

  datatype Option<+T> = None | Some(value: T) {

    /** The value, or a default when there is none. */
    function GetOr(default: T): T {
      match this
      case Some(v) => v
      case None => default
    }
  }

  /** A value, or the message of the error that prevented it. */
  datatype Result<+T> = Success(value: T) | Failure(message: string)
}
