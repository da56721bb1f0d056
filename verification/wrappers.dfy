/** The optional value used wherever the source has `null`, `undefined` or
    "no match". */
module Wrappers {

  datatype Option<+T> = None | Some(value: T)
}
