/** Optional values: Python's None stands for the None case. */
module Wrappers {
  datatype Option<+T> = None | Some(value: T)
}
