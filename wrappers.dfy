/** Optional values, for headers that may be absent and bodies that may not parse. */
module Wrappers {

  datatype Option<+T> = None | Some(value: T)
}
