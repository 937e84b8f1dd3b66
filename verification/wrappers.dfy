/** Optional values, standing for JavaScript's `T | null | undefined`. */
module Wrappers {

  datatype Option<+T> = None | Some(value: T)
}
