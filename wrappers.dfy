/** Optional values: stands for Go's nil interfaces, `nil` handlers and pointers. */
module Wrappers {
  datatype Option<+T> = None | Some(value: T)
}
