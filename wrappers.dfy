/** Optional values: a JavaScript property or argument that may be `undefined`. */
module Wrappers {

  datatype Option<+T> = None | Some(value: T)
}
