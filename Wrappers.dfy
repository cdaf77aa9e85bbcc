/** The optional value used for "a pose was detected" and "a record was emitted". */
module Wrappers {

  datatype Option<+T> = None | Some(value: T)
}
