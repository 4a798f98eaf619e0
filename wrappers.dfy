/** Small value wrappers shared by the stores. */
module Wrappers {

  /** A value that may be absent: JavaScript's `null`/`undefined` next to a present value. */
  datatype Option<+T> = None | Some(value: T)

  /** The outcome of an awaited call: the value it resolved to, or the message of the error it threw. */
  datatype Result<+T> = Success(value: T) | Failure(error: string)
}
