/** Optional values: a lookup that may find nothing, a dictionary key that may be missing. */
module Wrappers {

  datatype Option<+T> = None | Some(value: T)
}
