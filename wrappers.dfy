/** Optional values: `None` is used for JavaScript's NaN and for absent entries. */
module Wrappers {

  datatype Option<+T> = None | Some(value: T)
}
