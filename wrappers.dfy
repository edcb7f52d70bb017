/** Optional values: `None` stands for a JavaScript `null` or `undefined`. */
module Wrappers {
  datatype Option<+T> = None | Some(value: T)
}
