/** Optional values, for operations of the app that may produce nothing. */
module Wrappers {

  datatype Option<+T> = None | Some(value: T)
}
