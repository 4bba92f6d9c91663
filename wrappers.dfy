/** Option and Result, the two wrappers the gateway's Rust code uses for
    "maybe absent" and "value or error". */
module Wrappers {

  datatype Option<+T> = None | Some(value: T)

  datatype Result<+T, +E> = Success(value: T) | Failure(error: E)
}
