/** Option and Result: the absent value and the error return of the TypeScript source. */
module Wrappers {

  /** `undefined` / `null` versus a present value. */
  datatype Option<+T> = None | Some(value: T) {
    function GetOr(default: T): T {
      match this
      case Some(v) => v
      case None => default
    }
  }

  /** A thrown error versus a returned value. */
  datatype Result<+R, +E> = Success(value: R) | Failure(error: E)
}
