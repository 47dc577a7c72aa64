/** The optional value used wherever the app works with `undefined`, `null` or `false`
    standing for "no value". */
module Wrappers {

  datatype Option<+T> = None | Some(value: T)
}
