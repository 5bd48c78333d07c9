/** Failure-carrying datatypes shared by every module of the model. */
module Wrappers {

  /** A value that may be absent: JavaScript's `null` / `undefined`. */
  datatype Option<+T> = None | Some(value: T) {
    function GetOr(default: T): T {
      match this
      case Some(v) => v
      case None => default
    }
  }

  /** The two ways a Node-style callback is invoked: `cb(null, value)` or `cb(err)`. */
  datatype Result<+T, +E> = Ok(value: T) | Err(error: E)

  /** How a JavaScript call ends: it returns a value or it throws an `Error` with a message. */
  datatype Outcome<+T> = Return(value: T) | Throw(message: string)
}
