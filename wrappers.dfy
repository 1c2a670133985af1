/** Optional values: Go's nil pointers and unset settings. */
module Wrappers {

  datatype Option<+T> = None | Some(value: T)
}
