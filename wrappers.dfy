/** Failure-compatible wrappers shared by every module of the model. */
module Wrappers {

  /** An optional value; `None` plays the part of Go's nil. */
  datatype Option<+T> = None | Some(value: T)

  /** A value or an error kind; `Err` plays the part of a non-nil Go error. */
  datatype Result<+T, +E> = Ok(value: T) | Err(error: E) {
    /** The value, or `None` for an error. */
    function ToOption(): Option<T> {
      match this case Ok(v) => Some(v) case Err(_) => None
    }
  }
}
