/** Optional values, standing for Python's `Optional[...]` parameters. */
module Wrappers {

  datatype Option<+T> = None | Some(value: T)
}
