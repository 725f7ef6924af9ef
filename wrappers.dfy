/** Option and Result, the stock failure-carrying datatypes used across the model. */
module Wrappers {

  /** `T | undefined` (and `T | null` where the source treats both alike with `??` or `== null`). */
  datatype Option<+T> = None | Some(value: T) {
    /** `x ?? default` */
    function GetOr(default: T): T {
      match this
      case Some(v) => v
      case None => default
    }
  }

  datatype Result<+R, +E> = Success(value: R) | Failure(error: E)
}
