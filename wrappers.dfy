/** Optional values, used for "no error" versus "this error". */
module Wrappers {
  datatype Option<+T> = None | Some(value: T)
}
