/** Small value wrappers shared by every module of the model. */
module Wrappers {

  /** A value that may be absent (Python's `None`). */
  datatype Option<+T> = None | Some(value: T) {
    function GetOr(default: T): T {
      match this
      case Some(v) => v
      case None => default
    }
  }

  /** The outcome of a call that may raise: `Err` carries what the exception says. */
  datatype Result<+T, +E> = Ok(value: T) | Err(error: E)

  /** One key of a dictionary patch: left as it is, or overwritten with a value. */
  datatype Write<+T> = Keep | Set(value: T) {
    function Apply(oldValue: T): T {
      match this
      case Keep => oldValue
      case Set(v) => v
    }
  }
}
