/** Optional values, standing in for Go's nil. */
module Wrappers {
  datatype Option<+T> = None | Some(value: T)
}
