/** Optional values: a Python `None` default, an unset pptx property, or a guard that may not fire. */
module Wrappers {
  datatype Option<+T> = None | Some(value: T)
}
