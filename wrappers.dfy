/** Optional values: `None` stands for Python's `None` and for a lookup that raises. */
module Wrappers {
  datatype Option<T> = None | Some(value: T)
}
