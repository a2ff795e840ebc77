/** Optional values, for lookups and fetches that can fail. */
module Wrappers {
  datatype Option<T> = None | Some(value: T)
}
