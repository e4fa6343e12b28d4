/** What several modules need: an optional value, and how a file write can end. */
module Basics {
  datatype Option<+T> = None | Some(value: T)

  /** The file is replaced as a whole, but the call may report an error after the replacement. */
  datatype Write = Stored | Lost | StoredWithError
}
