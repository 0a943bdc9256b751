/** A value that may be absent: an undefined browser property, a missing
    element, a URL that does not parse. */
module Wrappers {
  datatype Option<+T> = None | Some(value: T)
}
