/** The optional value used wherever PHP returns `null` for "nothing here". */
module Wrappers {

  datatype Option<+T> = None | Some(value: T)
}
