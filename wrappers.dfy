/** Option and Result, the two shapes the handlers' error paths take. */
module Wrappers {

  /** A value that may be absent (JavaScript `null` or `undefined`). */
  datatype Option<+T> = None | Some(value: T)
  {
    function GetOr(default: T): T
    {
      match this
      case Some(v) => v
      case None => default
    }
  }

  /** Either a value or the error a handler answers with. */
  datatype Result<+T, +E> = Ok(value: T) | Err(error: E)
}
