/** Optional values: `undefined` in the source is `None` here. */
module Wrappers {

  datatype Option<+T> = None | Some(value: T)
}
