/** The usual optional value, shared by the dielectron configuration modules. */
module Wrappers {

  datatype Option<T> = None | Some(value: T)
}
