/** Optional values: a SQL NULL, a missing JSON key or form field, an absent session key. */
module Wrappers {
  datatype Option<+T> = None | Some(value: T)
}
