/** Optional values, used for the outcome of decoding a data line. */
module Wrappers {

  /** `None` when the payload could not be decoded, `Some(v)` otherwise. */
  datatype Option<+T> = None | Some(value: T)
}
