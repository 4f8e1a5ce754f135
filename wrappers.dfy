/** Optional values, used where a decoder may reject its input. */
module Wrappers {
  datatype Option<+T> = None | Some(value: T)
}
