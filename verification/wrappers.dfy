/** Failure-carrying datatypes shared by the decoder and the controller. */
module Wrappers {

  /** A value that may be absent (a frame that does not decode, a byte that is no code). */
  datatype Option<+T> = None | Some(value: T)

  /** The outcome of an action that returns nothing on success: Rust's `Result<(), E>`. */
  datatype Outcome<+E> = Pass | Fail(error: E)
}
