/** The optional value used wherever the page stores `T | null`. */
module Wrappers {

  datatype Option<+T> = None | Some(value: T)
}
