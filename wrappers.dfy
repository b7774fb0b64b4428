/** Optional values, standing for JavaScript's `undefined` results. */
module Wrappers {
  datatype Option<+T> = None | Some(value: T)
}
