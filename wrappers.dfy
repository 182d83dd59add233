/** Optional values: a JavaScript field that may be missing (`undefined`). */
module Wrappers {
  datatype Option<+T> = None | Some(value: T)
}
