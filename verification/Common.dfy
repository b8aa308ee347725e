/** Shared value types: an optional value, the outcome of an operation that may raise, and lists of ids. */
module Common {
  datatype Option<+T> = None | Some(value: T)

  datatype Result<+T, +E> = Ok(value: T) | Err(error: E)

  /** The ids a list names. */
  function Ids(listed: seq<nat>): set<nat> {
    set i | i in listed
  }
}
