/** Option and Result values shared by the node-service model and the Doris type-converter model. */
module Wrappers {

  /** A value that may be missing: Java's nullable reference. */
  datatype Option<+T> = None | Some(value: T) {

    /** The value, or `default` when it is missing. */
    function GetOr(default: T): T {
      match this
      case Some(v) => v
      case None => default
    }
  }

  /** Either a value or the error (Java exception) that was raised instead. */
  datatype Result<+T, +E> = Success(value: T) | Failure(error: E)
}
