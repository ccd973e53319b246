/** The optional values used for every field a receipt parser may fail to find. */
module Wrappers {

  datatype Option<+T> = None | Some(value: T)
}
