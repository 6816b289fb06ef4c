/** The optional-value datatype used for the stream's end marker. */
module Wrappers {

  datatype Option<+T> = None | Some(value: T)
}
