/** Optional values: a missing array slot, an omitted field, a document that is not emitted. */
module Wrappers {
  datatype Option<+T> = None | Some(value: T)
}
