/** Optional values, used where the program has a nil pointer or an absent map entry. */
module Wrappers {
  datatype Option<+T> = None | Some(value: T)
}
