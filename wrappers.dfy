/** Optional values, used for Python's `None` results and JavaScript's `null`. */
module Wrappers {

  datatype Option<+T> = None | Some(value: T)

}
