/** Optional values, for an absent key or a missing argument. */
module Wrappers {

  datatype Option<T> = None | Some(value: T)
}
