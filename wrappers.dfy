/** Optional values: the `None` that a dictionary lookup returns for a missing key. */
module Wrappers {

  datatype Option<+T> = None | Some(value: T)
}
