/** Small helper datatypes shared by the modules of this project. */
module Wrappers {

  /** A value that may be absent: Java's nullable reference. */
  datatype Option<+T> = None | Some(value: T)
}
