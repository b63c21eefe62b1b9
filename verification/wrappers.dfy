/** Optional values: the result of parsing the typed displacement, where a
    string that does not parse to a number (JavaScript's NaN) is None. */
module Wrappers {
  datatype Option<+T> = None | Some(value: T)
}
