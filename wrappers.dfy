/** Optional values, used for parse results and for key lifetimes. */
module Wrappers {
  datatype Option<+T> = None | Some(value: T)
}
