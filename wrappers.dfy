/** Optional values: a DOM element that may be absent, a nullable field, a search that may fail. */
module Wrappers {
  datatype Option<+T> = None | Some(value: T)
}
