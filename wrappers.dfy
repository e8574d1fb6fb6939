/** Option and Result: the model's stand-ins for Python's `None` and for a raised exception. */
module Wrappers {

  datatype Option<+T> = None | Some(value: T) {
    function GetOr(default: T): T {
      match this
      case Some(v) => v
      case None => default
    }
  }

  /** `Failure(e)` stands for "the call raised e"; `Success(v)` for "the call returned v". */
  datatype Result<+R, +E> = Success(value: R) | Failure(error: E)
}
