/** Optional values and results with an error, shared by the dialog scanner and the
    polygon loader. */
module Wrappers {

  datatype Option<+T> = None | Some(value: T)

  datatype Result<+R, +E> = Ok(value: R) | Err(error: E)
}
