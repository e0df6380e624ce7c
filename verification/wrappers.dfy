/** Option and Result, the two failure-carrying wrappers the model uses. */
module Wrappers {

  datatype Option<+T> = None | Some(value: T) {
    /** The wrapped value, or `other` when there is none. */
    function Or(other: Option<T>): Option<T> {
      if Some? then this else other
    }
  }

  datatype Result<+R, +E> = Success(value: R) | Failure(error: E)
}
