/** Optional values and fallible results, the Dafny counterparts of Rust's
    `Option<T>` and `Result<T, String>`. */
module Wrappers {

  datatype Option<+T> = None | Some(value: T)

  /** Every fallible operation of the program reports its error as a string. */
  datatype Result<+T> = Ok(value: T) | Err(error: string)

  /** The outcome of running code that may panic (an `.unwrap()` on an error):
      either it returned a value or the thread unwound with a message. */
  datatype Run<+T> = Done(value: T) | Panic(message: string)
}
