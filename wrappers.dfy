/** Optional values, used for a conversion that may fail and for a file that may be absent. */
module Wrappers {

  datatype Option<+T> = None | Some(value: T)
}
