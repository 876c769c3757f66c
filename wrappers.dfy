/** Failure-aware result types shared by the whole model. */
module Wrappers {

  /** An optional value: JavaScript's `undefined`/`null` versus a present value. */
  datatype Option<+T> = None | Some(value: T)

  /** The outcome of an operation that may throw: a value or the thrown message. */
  datatype Result<+T> = Ok(value: T) | Err(message: string)
}
