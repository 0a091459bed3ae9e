/** Optional values, used for Go's "value or absent" returns. */
module Wrappers {

  datatype Option<+T> = None | Some(value: T)
}
