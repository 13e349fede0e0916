/** The absent-or-present value used for JavaScript's optional arguments. */
module Wrappers {

  /** `None` stands for a JavaScript `null` (or an omitted argument). */
  datatype Option<+T> = None | Some(value: T)
}
