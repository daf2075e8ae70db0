/** An optional value: `None` stands for JavaScript's `undefined`, `NaN`
    or a missing element, `Some` for a present one. */
module Wrappers {
  datatype Option<+T> = None | Some(value: T)
}
