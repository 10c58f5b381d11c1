/** Option datatype used for values that may be absent: an unset storage
    slot, a number that did not parse (NaN), an optional argument. */
module Wrappers {

  datatype Option<+T> = None | Some(value: T)
}
