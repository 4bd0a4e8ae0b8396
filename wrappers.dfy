/** Option, for lookups that can miss and fragments that can be discarded. */
module Wrappers {

  datatype Option<+T> = None | Some(value: T)

}
