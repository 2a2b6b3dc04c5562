/** The conventional optional value, used for the outcomes that may be missing:
    a property read that throws, a store file that could not be read or parsed,
    an unset environment variable. */
module Wrappers {

  datatype Option<+T> = None | Some(value: T)
}
