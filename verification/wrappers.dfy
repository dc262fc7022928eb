/** The optional value used where the modelled code can fail or hold nothing. */
module Wrappers {

  datatype Option<T> = None | Some(value: T)
}
