/** Optional values, used for a transcript that resolves no outcome. */
module Wrappers {
  datatype Option<+T> = None | Some(value: T)
}
