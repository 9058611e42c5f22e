/** Optional values: the model's stand-in for JavaScript's `null` (and for NaN where a number may be absent). */
module Wrappers {

  datatype Option<+T> = None | Some(value: T)
}
