/** Option and Result, the two wrappers the engine client's records and the commands' results are built from. */
module Wrappers {

  /** Rust's `Option<T>`: every field of a runtime record may be absent. */
  datatype Option<+T> = None | Some(value: T)

  /** Rust's `Result<T, E>`: the outcome of a runtime call or of a command. */
  datatype Result<+T, +E> = Success(value: T) | Failure(error: E)
}
