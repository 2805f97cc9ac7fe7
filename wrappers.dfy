/** Optional values: JavaScript's `null` for an index or an id. */
module Wrappers {
  datatype Option<+T> = None | Some(value: T)
}
