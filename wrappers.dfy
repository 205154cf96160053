/** Optional values: JavaScript's `undefined` / a missing document field is `None`. */
module Wrappers {

  datatype Option<+T> = None | Some(value: T)
}
