/** Optional values, used where the source returns a null pointer or an "npos" position. */
module Wrappers {
  datatype Option<+T> = None | Some(value: T)
}
