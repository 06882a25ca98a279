/** Optional values: a Go func slot that may hold nil is an Option. */
module Wrappers {

  datatype Option<+T> = None | Some(value: T)
}
