/** The optional value used wherever the source returns `null`,
    `undefined` or an absent property. */
module Wrappers {
  datatype Option<+T> = None | Some(value: T)
}
