/** Failure-carrying wrappers shared by every module of the model:
    `Option` for lookups that may miss (`undefined`, `None`, an empty row set),
    `Result` for operations that throw or answer with an error code. */
module Wrappers {

  datatype Option<+T> = None | Some(value: T) {
    function GetOr(default: T): T {
      match this
      case Some(v) => v
      case None => default
    }
  }

  datatype Result<+T, +E> = Success(value: T) | Failure(error: E)
}
