/** Option and Result, the two failure-carrying types the model uses. */
module Wrappers {

  /** Rust's `Option<T>`: a value or nothing. */
  datatype Option<+T> = None | Some(value: T)

  /** The outcome of an operation that can panic: a value, or the panic message. */
  datatype Result<+T> = Ok(value: T) | Panic(message: string)
}
