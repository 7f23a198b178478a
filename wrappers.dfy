/** An optional value: `None` stands for a missing sender, a NaN parse or an absent field. */
module Wrappers {
  datatype Option<+T> = None | Some(value: T)
}
