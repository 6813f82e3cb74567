/** Optional and error-carrying results, used wherever the C code signals
    failure through a `bool` return or terminates the process, and the
    `uint8_t` byte every buffer is made of. */
module Wrappers {

  type byte = bv8

  datatype Option<+T> = None | Some(value: T)

  datatype Result<+R, +E> = Ok(value: R) | Err(error: E)
}
