/** Optional values: JavaScript's `undefined`/missing entries and a present value. */
module Wrappers {
  datatype Option<+T> = None | Some(value: T)
}
