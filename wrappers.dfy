/** Optional values, used for the error path of the address decoder. */
module Wrappers {
  datatype Option<+T> = None | Some(value: T)
}
