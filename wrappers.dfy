/** Optional values and results with an error message, shared by every module. */
module Wrappers {

  /** `None` stands for JavaScript's `undefined` (an absent optional field). */
  datatype Option<T> = None | Some(value: T) {
    function GetOr(default: T): T {
      match this
      case Some(v) => v
      case None => default
    }
  }

  /** `Err` carries the text of the `Error` the source throws. */
  datatype Result<T> = Ok(value: T) | Err(message: string)
}
