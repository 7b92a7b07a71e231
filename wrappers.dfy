/** Optional values and results with an error, used wherever the program can
    find nothing (a regular-expression search) or can raise (a list index). */
module Wrappers {

  datatype Option<+T> = None | Some(value: T)

  datatype Result<+T, +E> = Ok(value: T) | Err(error: E)
}
