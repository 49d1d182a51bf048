/** Optional values and success/failure results shared by the model. */
module Wrappers {

  /** `None` stands for JavaScript's `null` / `undefined`. */
  datatype Option<+T> = None | Some(value: T) {
    function GetOr(default: T): T {
      match this
      case Some(v) => v
      case None => default
    }
  }

  /** A promise that resolves with `Ok` or rejects with `Err`. */
  datatype Result<+T, +E> = Ok(value: T) | Err(error: E)
}
