/** The optional value used for C#'s nullable `int?` and for a match that may fail. */
module Wrappers {
  datatype Option<+T> = None | Some(value: T)
}
