/** Optional values and success/failure results, used wherever the diagram
    code returns `undefined`/`null` or throws. */
module Wrappers {

  datatype Option<+T> = None | Some(value: T)

  datatype Result<+T, +E> = Ok(value: T) | Err(error: E)
}
