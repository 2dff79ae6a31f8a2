/** Failure-carrying datatypes shared by the server and client models. */
module Wrappers {

  /** A value that may be absent; stands for a nullable Java or JavaScript reference. */
  datatype Option<+T> = None | Some(value: T) {
    function GetOr(default: T): T {
      match this
      case Some(v) => v
      case None => default
    }
  }

  /** Either a value or the error that replaced it (a thrown exception). */
  datatype Result<+T, +E> = Ok(value: T) | Err(error: E)
}
