/** Option and Result values used by the game engine. */
module Wrappers {

  /** A value that may be absent (the engine's `null`). */
  datatype Option<T> = None | Some(value: T)

  /** The outcome of an operation that may throw. */
  datatype Result<T> = Success(value: T) | Failure(message: string)
}
