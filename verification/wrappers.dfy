/** The optional value used wherever the control holds "a layer or nothing". */
module Wrappers {

  datatype Option<+T> = None | Some(value: T)
}
