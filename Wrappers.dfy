/** Small value wrappers shared by the face-matching modules. */
module Wrappers {

  /** A value that may be absent (Python's `None`). */
  datatype Option<+T> = None | Some(value: T)

  /** The outcome of a call that either returns a value or raises an exception. */
  datatype Outcome<+T> = Ok(value: T) | Raised
}
