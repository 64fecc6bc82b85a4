/** Option: a value that may be absent (a cancelled file dialog, a label that does not parse). */
module Wrappers {

  datatype Option<+T> = None | Some(value: T)
}
