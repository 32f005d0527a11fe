/** The optional value shared by the mode table and the sink's sample calls. */
module Wrappers {

  datatype Option<+T> = None | Some(value: T)
}
