/** Optional values: a Go value that may be nil, or a lookup with an "ok" flag. */
module Wrappers {
  datatype Option<+T> = None | Some(value: T)
}
