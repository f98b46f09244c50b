/** Optional values and results, used for parsed arguments, one-shot result slots and the display dispatch. */
module Wrappers {

  datatype Option<+T> = None | Some(value: T)

  datatype Result<+T, +E> = Ok(value: T) | Err(error: E)
}
