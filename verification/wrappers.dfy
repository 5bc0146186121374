/** Optional values: a fetch that may have failed, a comment sample that may be absent. */
module Wrappers {

  datatype Option<+T> = None | Some(value: T)
}
