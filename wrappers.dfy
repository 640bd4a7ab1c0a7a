/** Optional values and results, used wherever the dashboard has `null`, a
    missing entry or an error path. */
module Wrappers {

  datatype Option<+T> = None | Some(value: T)

  datatype Result<+T, +E> = Ok(value: T) | Err(error: E)
}
