/** Optional values and the outcomes of awaited calls. */
module Wrappers {

  /** A property that may be undefined. */
  datatype Option<+T> = None | Some(value: T)

  /** An awaited call: it resolves to a value, or rejects with an error whose `message` is given. */
  datatype Outcome<+T> = Ok(value: T) | Fail(message: string)
}
