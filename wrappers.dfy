/** Present-or-absent values: a key of a JSON object, a store lookup. */
module Wrappers {

  datatype Option<+T> = None | Some(value: T)
}
