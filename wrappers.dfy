/** Optional values, standing in for Python's `None` where a call may return nothing. */
module Wrappers {
  datatype Option<+T> = None | Some(value: T)
}
