/** Optional values: stands for a JavaScript field that may still be `undefined` or `null`. */
module Wrappers {

  datatype Option<+T> = None | Some(value: T)
}
