/** Optional values, standing for the nullable pointers and std::optional of the source. */
module Wrappers {
  datatype Option<+T> = None | Some(value: T)
}
