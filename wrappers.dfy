/** The optional-value datatype used for absent names and missing snapshots. */
module Wrappers {

  datatype Option<+T> = None | Some(value: T)
}
