/** Optional values, used where the source returns `None` or looks up a missing key. */
module Wrappers {
  datatype Option<+T> = None | Some(value: T)
}
