/** Optional values: a setting that may not have been made yet, an action that may not be taken. */
module Wrappers {

  datatype Option<+T> = None | Some(value: T)

}
