/** The conventional optional value, used for lookups that can miss and
    generators that can run out of random draws. */
module Wrappers {
  datatype Option<+T> = None | Some(value: T)
}
