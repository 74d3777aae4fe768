/** Optional values: `None` stands for JavaScript's `undefined` (or a result that is absent). */
module Wrappers {
  datatype Option<+T> = None | Some(value: T)
}
