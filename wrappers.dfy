/** Optional values: a stored key that may be absent, a name that may not parse. */
module Wrappers {

  datatype Option<+T> = None | Some(value: T)
}
