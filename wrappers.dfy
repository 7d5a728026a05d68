/** Optional values: JavaScript's `undefined` / `null` for a property or a reference. */
module Wrappers {

  datatype Option<+T> = None | Some(value: T)
}
