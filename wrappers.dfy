/** Option and Result datatypes used throughout the model. */
module Wrappers {

  /** A value that may be absent: stands for TypeScript's `null` / `undefined`. */
  datatype Option<+T> = None | Some(value: T)

  /** The outcome of a call into a collaborator that may throw or reject. */
  datatype Result<+T> = Success(value: T) | Failure(error: string)
}
