/** Optional values: JavaScript's `null` / `undefined` results where a value may be missing. */
module Wrappers {

  datatype Option<+T> = None | Some(value: T)
}
