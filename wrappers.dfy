/** Optional values: JavaScript's `undefined` for a missing property or an absent result. */
module Wrappers {

  datatype Option<+T> = None | Some(value: T)
}
