/** Option and Result: the error paths of the editor (missing values,
    Python exceptions) are modelled as values rather than preconditions. */
module Wrappers {

  datatype Option<+T> = None | Some(value: T) {
    function GetOr(default: T): T {
      match this
      case Some(v) => v
      case None => default
    }
  }

  /** The exception classes the core raises on bad input. */
  datatype Error = ValueError(message: string) | RuntimeError(message: string) | IndexError(message: string)

  datatype Result<+R> = Ok(value: R) | Err(error: Error)
}
