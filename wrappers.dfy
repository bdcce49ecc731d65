/** Option and Result, the two failure-carrying datatypes the rest of the model uses. */
module Wrappers {

  /** Python's `None` next to a value. */
  datatype Option<+T> = None | Some(value: T) {
    function GetOr(default: T): T {
      match this
      case Some(v) => v
      case None => default
    }
  }

  /** A value, or the error the source raises instead of returning one. */
  datatype Result<+R, +E> = Success(value: R) | Failure(error: E)

  /** An HTTP error response: status code and detail text. */
  datatype HttpError = HttpError(status: nat, detail: string)
}
