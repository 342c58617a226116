/** Optional values, used for the `webgl?` context and for `DefineSpec` value lists. */
module Wrappers {
  datatype Option<+T> = None | Some(value: T)
}
