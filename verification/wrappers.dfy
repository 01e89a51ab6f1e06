/** Optional values (Java's nullable references) and results with an error path (Java's exceptions). */
module Wrappers {

  /** `None` stands for Java's `null`. */
  datatype Option<+T> = None | Some(value: T) {
    function GetOr(default: T): T {
      match this
      case Some(v) => v
      case None => default
    }
  }

  /** `Err` stands for an exception thrown to the caller. */
  datatype Result<+T, +E> = Ok(value: T) | Err(error: E)
}
