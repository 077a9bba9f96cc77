/** Optional values: a key that is absent from a JavaScript object literal is `None`. */
module Wrappers {
  datatype Option<+T> = None | Some(value: T)
}
