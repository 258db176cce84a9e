/** Optional values: nil pointers, NULL columns and absent keys. */
module Wrappers {
  datatype Option<+T> = None | Some(value: T)
}
