/** Small value wrappers shared by the model. */
module Wrappers {

  /** A value that may be absent: a missing storage entry, a JSON field that
      is not of the expected type, a path segment that does not resolve. */
  datatype Option<+T> = None | Some(value: T) {
    function GetOr(default: T): T {
      match this
      case Some(v) => v
      case None => default
    }
  }

  /** The state of one browser-storage slot as the application sees it after
      `localStorage.getItem` and `JSON.parse`: nothing stored (which, as the
      readers test the text for truthiness first, includes an empty stored
      string), a value that parses, or non-empty text that makes
      `JSON.parse` throw. */
  datatype Slot<+T> = Missing | Stored(value: T) | Corrupt
}
