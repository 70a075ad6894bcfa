/** Optional values: a publish option that is either present or left out. */
module Wrappers {

  datatype Option<+T> = None | Some(value: T)
}
