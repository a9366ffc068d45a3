/** Optional values, standing in for Python's `None` and C's NULL. */
module Wrappers {

  datatype Option<+T> = None | Some(value: T)
}
