/** Optional values, used for parse results and for fields that may be undefined. */
module Wrappers {

  datatype Option<+T> = None | Some(value: T)
}
