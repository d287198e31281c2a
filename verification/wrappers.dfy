/** Option and Result, the two failure-carrying datatypes the rest of the model uses
    for JavaScript's `undefined` results and thrown errors. */
module Wrappers {

  /** `None` stands for JavaScript's `undefined` (or a missing field). */
  datatype Option<+T> = None | Some(value: T) {
    function GetOr(default: T): T {
      match this
      case Some(v) => v
      case None => default
    }
  }

  /** `Err` stands for an exception thrown by the modelled code; the payload says which one. */
  datatype Result<+T> = Ok(value: T) | Err(error: string)
}
