/** Optional values and results shared by the quiz model. */
module Basics {

  /** An optional value: JavaScript's `null`/`undefined` versus a present value. */
  datatype Option<+T> = None | Some(value: T) {

    /** The wrapped value, or `default` when absent. */
    function GetOr(default: T): T {
      match this
      case Some(v) => v
      case None => default
    }
  }

  /** Either a computed value or the message of the error that was thrown. */
  datatype Result<+R, +E> = Success(value: R) | Failure(error: E)
}
