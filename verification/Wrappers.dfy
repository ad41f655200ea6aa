/** Values that may be absent, and computations that may fail. */
module Wrappers {
  datatype Option<+T> = None | Some(value: T) {
    function GetOr(default: T): T {
      if Some? then value else default
    }

    /** JavaScript's `this ?? other`, for an absent value. */
    function OrElse(other: Option<T>): Option<T> {
      if Some? then this else other
    }
  }

  datatype Result<+R, +E> = Success(value: R) | Failure(error: E)
}
