/** The optional value used for nullable references and absent preferences. */
module Wrappers {

  datatype Option<+T> = None | Some(value: T)
}
