/** Optional values, used for the classifier's "no icon" result. */
module Wrappers {

  datatype Option<+T> = None | Some(value: T)
}
