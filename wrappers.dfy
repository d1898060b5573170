/** Optional values, used where a lookup may miss. */
module Wrappers {

  datatype Option<+T> = None | Some(value: T)
}
