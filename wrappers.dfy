/** Optional values: the model's stand-in for a JavaScript slot that may still be `undefined`. */
module Wrappers {

  datatype Option<+T> = None | Some(value: T)
}
