/**
  Option and Result, the two failure-carrying shapes used throughout the model:
  `Option` stands for a JavaScript value that may be `null`/`undefined`, and
  `Result` for a computation that either returns or throws.
 */
module Base {

  datatype Option<+T> = None | Some(value: T) {
    function GetOr(default: T): T {
      match this
      case Some(v) => v
      case None => default
    }
  }

  datatype Result<+T, +E> = Ok(value: T) | Fail(error: E)
}
