/** Optional values: a JavaScript `T | undefined`. */
module Wrappers {

  datatype Option<+T> = None | Some(value: T)
}
