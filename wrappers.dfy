/** Optional values and results with an error, as the translator returns them. */
module Wrappers {

  datatype Option<+T> = None | Some(value: T) {

    /** The wrapped value, or `default` when there is none. */
    function GetOr(default: T): T {
      match this
      case Some(v) => v
      case None => default
    }
  }

  /** A translator call either yields DDL text or fails with an error and no text. */
  datatype Result<+R, +E> = Ok(value: R) | Err(error: E)
}
