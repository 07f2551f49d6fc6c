/** Optional values: JavaScript's `undefined` from `Array.prototype.find`, and
    `NaN` from `parseFloat`, are both modelled as `None`. */
module Wrappers {
  datatype Option<+T> = None | Some(value: T)
}
