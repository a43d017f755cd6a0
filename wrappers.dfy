/** Optional values, for arguments an HTTP request may or may not carry. */
module Wrappers {

  datatype Option<+T> = None | Some(value: T)
}
