/** The optional value used for the nullable fields and the absent storage slot. */
module Wrappers {

  datatype Option<+T> = None | Some(value: T)
}
