/** Optional values: Python's `None` versus an actual value. */
module Wrappers {
  datatype Option<+T> = None | Some(value: T)
}
