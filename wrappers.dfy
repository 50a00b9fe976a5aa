/** Option and Result, the two wrapper datatypes the model uses. */
module Wrappers {

  /** An optional value: JavaScript's `undefined` versus a present value. */
  datatype Option<+T> = None | Some(value: T) {

    /** The value, or `default` when absent (JavaScript's `??` and default parameters). */
    function GetOr(default: T): T {
      match this
      case Some(v) => v
      case None => default
    }
  }

  /** A resolved promise (`Success`) or a rejected one (`Failure`). */
  datatype Result<+R, +E> = Success(value: R) | Failure(error: E)
}
