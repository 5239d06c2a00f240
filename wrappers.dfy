/** Outcomes of the calls the page cannot see into. */
module Wrappers {

  /** A value that may be missing: the result of a contract read that either returns or fails. */
  datatype Option<+T> = None | Some(value: T)

  /** The outcome of an awaited wallet call: its value, or the message of the error it threw. */
  datatype Outcome<+T> = Ok(value: T) | Thrown(message: string)
}
