/** Optional values: a key that may be absent from a Python dict or a pickle payload. */
module Wrappers {

  datatype Option<+T> = None | Some(value: T)
}
