/** Option and Result values used throughout the model for absent values and error paths. */
module Wrappers {

  datatype Option<+T> = None | Some(value: T) {

    /** The wrapped value, or `default` when there is none. */
    function GetOr(default: T): T {
      match this
      case Some(v) => v
      case None => default
    }
  }

  /** A validation result: the accepted value or the message of the rejection. */
  datatype Result<+R, +E> = Success(value: R) | Failure(error: E)
}
