/** The optional value used where a lookup or a sequence of events may have no result. */
module Wrappers {

  datatype Option<+T> = None | Some(value: T)
}
