/** Optional values: a Go pointer or a (value, ok) pair that may be absent. */
module Wrappers {
  datatype Option<T> = None | Some(value: T)
}
