/** Optional values and results with an error, used wherever the TypeScript
    code has `undefined`, `null`, an optional property or a thrown error. */
module Wrappers {

  /** `T | undefined`: an absent value is None. */
  datatype Option<+T> = None | Some(value: T) {

    /** The `x ?? d` / `x || d` fallback when only absence triggers it. */
    function GetOr(default: T): T {
      match this
      case Some(v) => v
      case None => default
    }
  }

  /** A value, or the error a function throws instead of returning. */
  datatype Result<+T, +E> = Ok(value: T) | Err(error: E)
}
