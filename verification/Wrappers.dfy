/** An optional value, for results the source reports as nil or an absent row. */
module Wrappers {
  datatype Option<+T> = None | Some(value: T)
}
