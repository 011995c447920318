/** Optional values and results of operations that can fail with a message. */
module Wrappers {

  /** `None` stands for JavaScript's `undefined` / `null`. */
  datatype Option<+T> = None | Some(value: T)

  /** The outcome of an operation that may throw: `Err` carries the thrown error's message. */
  datatype Result<+T> = Ok(value: T) | Err(message: string)
}
