/** Optional values: a stored item that may be absent, a note that may not be emitted. */
module Wrappers {
  datatype Option<+T> = None | Some(value: T)
}
