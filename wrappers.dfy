/** The optional value used for every field the source may leave `undefined`. */
module Wrappers {

  datatype Option<+T> = None | Some(value: T)
}
