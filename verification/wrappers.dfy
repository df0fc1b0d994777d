/** Optional values: Python's `None` for the optional filter arguments and for a failed parse. */
module Wrappers {

  datatype Option<+T> = None | Some(value: T)

}
