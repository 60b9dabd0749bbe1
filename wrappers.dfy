/** Optional values: a fixture lookup that may miss, a nullable string. */
module Wrappers {
  datatype Option<+T> = None | Some(value: T)
}
