/** Option and Result, the two failure shapes the Go and JavaScript code use:
    a nil slice / undefined value, and an (value, error) pair. */
module Wrappers {

  datatype Option<+T> = None | Some(value: T) {
    function GetOr(default: T): T {
      match this
      case Some(v) => v
      case None => default
    }
  }

  datatype Result<+T> = Ok(value: T) | Err(msg: string) {
    predicate IsFailure() { Err? }
  }
}
