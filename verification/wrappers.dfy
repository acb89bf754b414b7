/** The conventional optional value, used for Ruby's `nil`-or-something results. */
module Wrappers {

  datatype Option<+T> = None | Some(value: T)
}
