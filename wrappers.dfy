/** Optional values: a rate fetch that may fail, a string that may not parse. */
module Wrappers {

  datatype Option<+T> = None | Some(value: T)

}
