/** Option and Result, the two shapes every fallible operation of the model returns. */
module Outcomes {

  datatype Option<+T> = None | Some(value: T) {
    function GetOr(default: T): T {
      match this
      case Some(v) => v
      case None => default
    }
  }

  /** Ok carries the value; Err carries the exception the Python code would raise. */
  datatype Result<+T, +E> = Ok(value: T) | Err(error: E)
}
