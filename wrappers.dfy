/** Optional values: a JSON field that is either absent or present. */
module Wrappers {

  datatype Option<+T> = None | Some(value: T)
}
