/** Optional values: a JSON field that may be missing, `null` or `undefined`. */
module Wrappers {
  datatype Option<+T> = None | Some(value: T)
}
