/** Optional values and fallible results, shared by every other module. */
module Wrappers {

  datatype Option<+T> = None | Some(value: T)

  datatype Result<+T, +E> = Ok(value: T) | Err(error: E)

  /** A byte of an event, a snapshot or an export stream. */
  newtype byte = b: int | 0 <= b < 256

  type Bytes = seq<byte>
}
