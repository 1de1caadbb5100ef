/** Optional values, used for protobuf fields that may be absent and for way-node locations. */
module Wrappers {
  datatype Option<+T> = None | Some(value: T)
}
