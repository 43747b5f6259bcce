/** The optional value used wherever the TypeScript has `undefined`, `null` or a
    result that may be missing. */
module Wrappers {
  datatype Option<+T> = None | Some(value: T)
}
