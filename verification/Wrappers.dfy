/** An optional value, as the look-ups of every repository return it. */
module Wrappers {

  datatype Option<+T> = None | Some(value: T)
}
