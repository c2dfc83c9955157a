/** Optional values: `None` stands for the `None` a loader returns when its input file is missing. */
module Wrappers {
  datatype Option<+T> = None | Some(value: T)
}
