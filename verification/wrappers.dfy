/** Optional values: a missing dictionary key, a failed parse. */
module Wrappers {

  datatype Option<+T> = None | Some(value: T)
}
