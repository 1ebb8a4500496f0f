/** Optional values: a header that may be absent, a table entry that may be missing. */
module Wrappers {

  datatype Option<+T> = None | Some(value: T)
}
