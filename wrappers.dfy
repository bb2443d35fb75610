/** The optional value used where the source returns "no match". */
module Wrappers {

  datatype Option<+T> = None | Some(value: T)
}
