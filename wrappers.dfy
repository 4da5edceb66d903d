/** A value that may be absent: a Java `null` field, a JSON property left out of an object. */
module Wrappers {

  datatype Option<+T> = None | Some(value: T)
}
