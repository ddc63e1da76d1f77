/** Failure-compatible result types shared by the whole model. */
module Wrappers {

  /** A value that may be absent (JavaScript's `null`). */
  datatype Option<+T> = None | Some(value: T)

  /** The outcome of an operation that may throw: `Throw` carries the Error's message. */
  datatype Outcome = Ok | Throw(message: string)
}
