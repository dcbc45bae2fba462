/** Optional values: `None` stands where the source has a null reference. */
module Wrappers {

  datatype Option<+T> = None | Some(value: T)
}
