/** Optional values; `None` stands for a JavaScript value that is `undefined`. */
module Wrappers {
  datatype Option<+T> = None | Some(value: T)
}
