/** Option and Result values for the lookups that may miss and the operations that may raise. */
module Wrappers {

  datatype Option<+T> = None | Some(value: T) {
    /** The value, or `default` when there is none (Python's `dict.get(key, default)`). */
    function GetOr(default: T): T {
      match this
      case Some(v) => v
      case None => default
    }
  }

  /** `Failure` stands for an exception raised by the client. */
  datatype Result<+R, +E> = Success(value: R) | Failure(error: E)
}
