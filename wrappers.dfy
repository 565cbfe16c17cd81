/** Optional values, standing in for C's NULL / "not set". */
module Wrappers {
  datatype Option<+T> = None | Some(value: T)
}
