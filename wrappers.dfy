/** Option and Result, shared by every module of the model. */
module Wrappers {

  /** A value that may be absent: JavaScript's `null`/`undefined`, Rust's `Option`. */
  datatype Option<T> = None | Some(value: T)

  /** The outcome of an operation that can fail: a rejected promise, a thrown
      error, or Rust's `anyhow::Result`. */
  datatype Result<T, E> = Ok(value: T) | Err(error: E)

  /** An operation with no value that can fail. */
  datatype Outcome<E> = Pass | Fail(error: E)
}
