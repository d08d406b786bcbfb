/** Optional values and success-or-error results, used for the tracker's
    missing keys and for the ValueError / "not found" paths of its operations. */
module Wrappers {

  datatype Option<+T> = None | Some(value: T)

  datatype Result<+T, +E> = Ok(value: T) | Err(error: E)
}
